/**
 * The agent-based backend: the system prompt it builds from mode, meta-prompt
 * and date, the choice between the hosted and the local OpenAI-compatible
 * client, the defaulting of sampling parameters, and the mapping of the agent's
 * outcome to a response or an HTTP error.  The agent run itself is an input.
 */
module PromptAgent {
  import opened Base
  import opened Text
  import opened PyModels

  /** The request record of this backend: mode and provider are free strings. */
  datatype AgentRequest = AgentRequest(
    mode: string,
    provider: string,
    model: string,
    inputText: string,
    metaPrompt: Option<MetaPromptConfig>,
    temperature: Option<real>,
    maxTokens: Option<int>)

  /** The first line of every system prompt; `date` is the current date as `YYYY-MM-DD`. */
  function BasePrompt(mode: string, date: string): string {
    "You are an expert at " + mode + ". The current date is: " + date
  }

  /** The first line names the mode as the expertise and closes with the date. */
  lemma BasePromptMentions(mode: string, date: string)
    ensures StartsWith(BasePrompt(mode, date), "You are an expert at " + mode)
    ensures EndsWith(BasePrompt(mode, date), date)
  {
    var opening := "You are an expert at " + mode;
    var middle := ". The current date is: ";
    assert BasePrompt(mode, date) == opening + (middle + date);
    StartsWithAppend(opening, middle + date);
    EndsWithAppend(opening + middle, date, date);
  }

  /** `if meta_prompt.sections:` holds for a present, non-empty list. */
  predicate HasSections(meta: MetaPromptConfig) {
    meta.sections.Some? && |meta.sections.value| > 0
  }

  const InstructionsHeading: string := "\nInstructions:"
  const SectionsHeading: string := "\nRequired Sections:"
  const ItemPrefix: string := "- "

  /** The sections part of `prompt_parts`: the heading and one `- ` item per section, or nothing. */
  function SectionsParts(meta: MetaPromptConfig): seq<string> {
    if HasSections(meta) then [SectionsHeading] + Prefixed(ItemPrefix, meta.sections.value) else []
  }

  /** The list `prompt_parts` that `create_system_prompt` joins. */
  function PromptParts(base: string, meta: MetaPromptConfig): seq<string> {
    [base, "\nPurpose: " + meta.purpose] + ([InstructionsHeading] + Prefixed(ItemPrefix, meta.instructions))
    + SectionsParts(meta)
  }

  /**
   * The parts in order: the base line, the purpose line, the instructions heading,
   * one `- ` item per instruction, then the sections heading and items when there are sections.
   */
  lemma PromptPartsShape(base: string, meta: MetaPromptConfig)
    ensures var parts := PromptParts(base, meta);
            && |parts| == 3 + |meta.instructions| + (if HasSections(meta) then 1 + |meta.sections.value| else 0)
            && parts[0] == base && parts[1] == "\nPurpose: " + meta.purpose && parts[2] == InstructionsHeading
            && (forall k :: 0 <= k < |meta.instructions| ==> parts[3 + k] == ItemPrefix + meta.instructions[k])
            && (HasSections(meta) ==> parts[3 + |meta.instructions|] == SectionsHeading)
            && (HasSections(meta) ==> forall k :: 0 <= k < |meta.sections.value| ==>
                  parts[4 + |meta.instructions| + k] == ItemPrefix + meta.sections.value[k])
  {
    var items := Prefixed(ItemPrefix, meta.instructions);
    var main := [base, "\nPurpose: " + meta.purpose] + ([InstructionsHeading] + items);
    assert forall k :: 0 <= k < |meta.instructions| ==> main[3 + k] == items[k];
    var parts := main + SectionsParts(meta);
    assert forall k :: 0 <= k < |main| ==> parts[k] == main[k];
    if HasSections(meta) {
      var sections := Prefixed(ItemPrefix, meta.sections.value);
      assert SectionsParts(meta) == [SectionsHeading] + sections;
      assert forall k :: 0 <= k < |sections| ==> parts[|main| + 1 + k] == sections[k];
    }
  }

  /** `create_system_prompt`: the base line alone, or the meta-prompt's parts joined by newlines after it. */
  function CreateSystemPrompt(mode: string, meta: Option<MetaPromptConfig>, date: string): (prompt: string)
    ensures meta.None? ==> prompt == BasePrompt(mode, date)
  {
    if meta.Some? then Join(PromptParts(BasePrompt(mode, date), meta.value), "\n")
    else BasePrompt(mode, date)
  }

  /** The text the sections part adds: a newline, the heading and the item lines, or nothing. */
  function SectionsText(meta: MetaPromptConfig): string {
    if HasSections(meta) then "\n" + SectionsHeading + Lines(ItemPrefix, meta.sections.value) else ""
  }

  /** Joining parts followed by the sections part appends the sections text. */
  lemma JoinSectionsAfter(main: seq<string>, meta: MetaPromptConfig)
    requires main != []
    ensures Join(main + SectionsParts(meta), "\n") == Join(main, "\n") + SectionsText(meta)
  {
    if HasSections(meta) {
      JoinHeadingAfter(main, SectionsHeading, ItemPrefix, meta.sections.value);
    } else {
      assert main + SectionsParts(meta) == main;
    }
  }

  /** Joining all parts written out. */
  lemma PartsJoin(base: string, meta: MetaPromptConfig)
    ensures Join(PromptParts(base, meta), "\n")
         == base + "\n" + "\nPurpose: " + meta.purpose + "\n" + InstructionsHeading
            + Lines(ItemPrefix, meta.instructions) + SectionsText(meta)
  {
    var purpose := "\nPurpose: " + meta.purpose;
    var head := [base, purpose];
    var main := head + ([InstructionsHeading] + Prefixed(ItemPrefix, meta.instructions));
    assert PromptParts(base, meta) == main + SectionsParts(meta);
    assert Join(head, "\n") == base + "\n" + purpose by {
      assert head[1..] == [purpose];
    }
    var instructions := Lines(ItemPrefix, meta.instructions);
    var sections := SectionsText(meta);
    JoinHeadingAfter(head, InstructionsHeading, ItemPrefix, meta.instructions);
    assert Join(main, "\n") == base + "\n" + purpose + "\n" + InstructionsHeading + instructions;
    JoinSectionsAfter(main, meta);
  }

  /**
   * The system prompt with a meta-prompt, written out: a blank line before the
   * purpose and before each heading, one `- ` line per instruction and per
   * section in order, and nothing from `variables`.
   */
  lemma SystemPromptText(mode: string, meta: MetaPromptConfig, date: string)
    ensures CreateSystemPrompt(mode, Some(meta), date)
         == BasePrompt(mode, date) + "\n" + "\nPurpose: " + meta.purpose + "\n" + InstructionsHeading
            + Lines(ItemPrefix, meta.instructions) + SectionsText(meta)
  {
    PartsJoin(BasePrompt(mode, date), meta);
  }

  /** The variables list never reaches the system prompt. */
  lemma SystemPromptIgnoresVariables(mode: string, meta: MetaPromptConfig, date: string, variables: Option<seq<string>>)
    ensures CreateSystemPrompt(mode, Some(meta.(variables := variables)), date) == CreateSystemPrompt(mode, Some(meta), date)
  {
    assert PromptParts(BasePrompt(mode, date), meta.(variables := variables)) == PromptParts(BasePrompt(mode, date), meta);
  }

  /** The two OpenAI-compatible clients: the hosted one, and the one at the local Ollama `/v1` URL. */
  datatype Client = Cloud | Local

  datatype ModelChoice = ModelChoice(client: Client, name: string, temperature: real, maxTokens: int)

  /** `get_model`: the three hosted vendors use the hosted client, every other provider the local one. */
  function GetModel(provider: string, modelName: string, temperature: real, maxTokens: int): (m: ModelChoice)
    ensures m.client == Cloud <==> provider in {"openai", "anthropic", "google"}
    ensures m.name == modelName && m.temperature == temperature && m.maxTokens == maxTokens
  {
    var client := if provider == "openai" || provider == "anthropic" || provider == "google" then Cloud else Local;
    ModelChoice(client, modelName, temperature, maxTokens)
  }

  /** `request.temperature or 0.7`: an absent or zero temperature becomes 0.7. */
  function TemperatureOr(t: Option<real>): (r: real)
    ensures t.None? || t.value == 0.0 ==> r == 0.7
    ensures t.Some? && t.value != 0.0 ==> r == t.value
  {
    if t.Some? && t.value != 0.0 then t.value else 0.7
  }

  /** `request.max_tokens or 1000`: an absent or zero limit becomes 1000. */
  function MaxTokensOr(n: Option<int>): (r: int)
    ensures n.None? || n.value == 0 ==> r == 1000
    ensures n.Some? && n.value != 0 ==> r == n.value
  {
    if n.Some? && n.value != 0 then n.value else 1000
  }

  /** The defaults never yield a zero temperature or a zero token limit. */
  lemma DefaultsAreTruthy(t: Option<real>, n: Option<int>)
    ensures TemperatureOr(t) != 0.0 && MaxTokensOr(n) != 0
  {
  }

  /** The `ExpansionResult` record. */
  datatype ExpansionResult = ExpansionResult(expandedContent: string, sections: map<string, string>) {
    /** `to_response`: the expanded text, without usage or error. */
    function ToResponse(): (r: PromptResponse)
      ensures r.content == expandedContent && r.usage.None? && r.error.None?
    {
      PromptResponse(expandedContent, None, None)
    }
  }

  /** What `process_prompt` configures for one request, and how it ends. */
  datatype Dispatch = Dispatch(
    model: ModelChoice,
    systemPrompt: string,
    expansionRun: bool,
    result: Result<PromptResponse, HttpError>)

  /**
   * `process_prompt`.  `expansion` is how the agent run with the expansion
   * tool ends and `completion` how the direct completion ends (a value, or
   * the text of the exception raised); only the one the mode selects is used.
   */
  function ProcessPrompt(request: AgentRequest, date: string,
                         expansion: Result<ExpansionResult, string>,
                         completion: Result<string, string>): (d: Dispatch)
    ensures d.model == GetModel(request.provider, request.model,
                                TemperatureOr(request.temperature), MaxTokensOr(request.maxTokens))
    ensures d.systemPrompt == CreateSystemPrompt(request.mode, request.metaPrompt, date)
    ensures d.expansionRun <==> request.mode == "expansion"
    ensures d.expansionRun && expansion.Ok? ==> d.result == Ok(expansion.value.ToResponse())
    ensures !d.expansionRun && completion.Ok? ==> d.result == Ok(PromptResponse(completion.value, None, None))
    ensures d.result.Err? <==> (if d.expansionRun then expansion.Err? else completion.Err?)
    ensures d.result.Err? ==> d.result.error == HttpError(500, if d.expansionRun then expansion.error else completion.error)
  {
    var model := GetModel(request.provider, request.model,
                          TemperatureOr(request.temperature), MaxTokensOr(request.maxTokens));
    var system := CreateSystemPrompt(request.mode, request.metaPrompt, date);
    if request.mode == "expansion" then
      var result := match expansion
        case Ok(e) => Ok(e.ToResponse())
        case Err(message) => Err(HttpError(500, message));
      Dispatch(model, system, true, result)
    else
      var result := match completion
        case Ok(content) => Ok(PromptResponse(content, None, None))
        case Err(message) => Err(HttpError(500, message));
      Dispatch(model, system, false, result)
  }

  /** A successful answer never carries an error or usage figures. */
  lemma ProcessPromptSuccess(request: AgentRequest, date: string,
                             expansion: Result<ExpansionResult, string>, completion: Result<string, string>)
    ensures var d := ProcessPrompt(request, date, expansion, completion);
            d.result.Ok? ==> d.result.value.error.None? && d.result.value.usage.None?
  {
  }

  /** A zero temperature in the request reaches the model as 0.7. */
  lemma ZeroTemperatureReplaced(request: AgentRequest, date: string,
                                expansion: Result<ExpansionResult, string>, completion: Result<string, string>)
    requires request.temperature == Some(0.0)
    ensures ProcessPrompt(request, date, expansion, completion).model.temperature == 0.7
  {
  }
}
