/**
 * The JSON boundary between the browser client and the two backends: the
 * editor's request as the JSON body `JSON.stringify` produces (absent optional
 * fields are left out), and the status record as the client reads it back.
 */
module Wire {
  import opened Base
  import opened Text
  import opened PyModels
  import LlmService
  import ModelSelector
  import PromptSystem
  import PromptAgent
  import OllamaHealth
  import OllamaEndpoints
  import OllamaStatusIndicator

  /** An optional client field: an absent value is left out of the JSON. */
  function OmitNone<T>(o: Option<T>): (f: Field<T>)
    ensures f.Missing? <==> o.None?
    ensures o.Some? ==> f == Given(o.value)
  {
    if o.Some? then Given(o.value) else Missing
  }

  /** The meta-prompt as a JSON object. */
  function MetaJson(c: LlmService.MetaPromptConfig): MetaBody {
    MetaBody(Given(c.purpose), Given(c.instructions), OmitNone(c.sections), OmitNone(c.variables))
  }

  /** The request as a JSON body. */
  function RequestJson(r: LlmService.PromptRequest): RequestBody {
    RequestBody(Given(r.mode), Given(r.provider), Given(r.model), Given(r.inputText),
                if r.metaPrompt.Some? then Given(MetaJson(r.metaPrompt.value)) else Missing,
                OmitNone(r.temperature), OmitNone(r.maxTokens))
  }

  /** Every category id of the editor is a `PromptMode` value. */
  lemma CategoriesAreModes(k: nat)
    requires k < |PromptSystem.PromptTypes()|
    ensures ParseMode(PromptSystem.PromptTypes()[k].id).Some?
  {
  }

  /** Every provider the picker's options decode to is an `LLMProvider` value. */
  lemma PickerProvidersParse(models: seq<string>, k: nat)
    requires k < |ModelSelector.ModelOptions(models)|
    ensures ParseProvider(PromptSystem.GetModelProvider(ModelSelector.ModelOptions(models)[k])).Some?
  {
    PromptSystem.OptionsDecode(models, k);
  }

  /**
   * A request the editor builds for one of its categories and a model the
   * picker offers passes the backend's validation, with the editor's draft
   * and sampling settings intact.
   */
  lemma EditorRequestValidates(k: nat, models: seq<string>, j: nat, input: string,
                               useMetaPrompt: bool, metaPrompt: LlmService.MetaPromptConfig)
    requires k < |PromptSystem.PromptTypes()| && j < |ModelSelector.ModelOptions(models)|
    ensures var r := PromptSystem.BuildRequest(PromptSystem.PromptTypes()[k].id, ModelSelector.ModelOptions(models)[j],
                                               input, useMetaPrompt, metaPrompt);
            var v := ValidateRequest(RequestJson(r));
            && v.Some?
            && ModeValue(v.value.mode) == PromptSystem.PromptTypes()[k].id
            && ProviderValue(v.value.provider) == r.provider
            && v.value.model == r.model && v.value.inputText == input
            && v.value.temperature == Some(0.7) && v.value.maxTokens == Some(1000)
            && (v.value.metaPrompt.Some? <==> useMetaPrompt)
            && (useMetaPrompt ==> v.value.metaPrompt.value
                                  == MetaPromptConfig(metaPrompt.purpose, metaPrompt.instructions,
                                                      metaPrompt.sections, metaPrompt.variables))
  {
    CategoriesAreModes(k);
    PickerProvidersParse(models, j);
  }

  /**
   * An identifier the picker does not offer passes through as its own provider:
   * the enum-typed backend rejects it, while the agent backend routes it to its local client.
   */
  lemma UnknownProviderRejected(input: string)
    ensures var r := PromptSystem.BuildRequest("expansion", "llama3", input, false,
                                               LlmService.MetaPromptConfig("", [], None, None));
            r.provider == "llama3" && ValidateRequest(RequestJson(r)).None?
            && PromptAgent.GetModel(r.provider, r.model, 0.7, 1000).client == PromptAgent.Local
  {
    assert !StartsWith("llama3", "ollama:") by { assert |"llama3"| < |"ollama:"|; }
  }

  /** The meta-prompt as the Ollama route's dict. */
  function MetaDictOf(c: LlmService.MetaPromptConfig): MetaDict {
    MetaDict(Given(c.purpose), Given(c.instructions), OmitNone(c.sections), OmitNone(c.variables), 0)
  }

  /** The request as the Ollama route validates it. */
  function GenerateRequestOf(r: LlmService.PromptRequest): OllamaEndpoints.GenerateRequest {
    OllamaEndpoints.GenerateRequest(
      r.mode, r.provider, r.model, r.inputText,
      if r.metaPrompt.Some? then Some(MetaDictOf(r.metaPrompt.value)) else None,
      OptionalOr(OmitNone(r.temperature), Some(0.7)), OptionalOr(OmitNone(r.maxTokens), Some(1000)))
  }

  /**
   * For a local model the prompt Ollama receives is the input itself, or,
   * in structured mode, the tagged prompt with the draft's purpose and its
   * instructions one per line, even when the draft is empty.
   */
  lemma EditorOllamaPrompt(category: string, name: string, input: string,
                           useMetaPrompt: bool, metaPrompt: LlmService.MetaPromptConfig)
    ensures var r := PromptSystem.BuildRequest(category, "ollama:" + name, input, useMetaPrompt, metaPrompt);
            var built := OllamaEndpoints.BuildOllamaRequest(GenerateRequestOf(r));
            && r.provider == "ollama" && r.model == name
            && built.Ok? && built.value.model == name && built.value.temperature == Some(0.7)
            && (!useMetaPrompt ==> built.value.prompt == input)
            && (useMetaPrompt ==>
                  built.value.prompt
                  == "<purpose>\n" + metaPrompt.purpose + "\n</purpose>\n\n<instructions>\n"
                     + Join(metaPrompt.instructions, "\n") + "\n</instructions>\n\n<input>\n" + input + "\n</input>")
  {
    PromptSystem.DecodeOllama(name);
    var r := PromptSystem.BuildRequest(category, "ollama:" + name, input, useMetaPrompt, metaPrompt);
    if useMetaPrompt {
      var d := MetaDictOf(metaPrompt);
      OllamaEndpoints.TaggedPrompt(GenerateRequestOf(r), metaPrompt.purpose, metaPrompt.instructions, d);
    }
  }

  /** `response.json()` of the status route, read as the client's record; an unknown status text is not a record. */
  function StatusDataOf(r: OllamaEndpoints.StatusRecord): (d: Option<OllamaStatusIndicator.OllamaStatusData>)
    ensures d.Some? <==> r.status in {"available", "unavailable", "loading"}
    ensures d.Some? ==> d.value.lastChecked == r.lastChecked && d.value.models == r.models && d.value.error == r.error
  {
    var status :=
      if r.status == "available" then Some(OllamaStatusIndicator.Available)
      else if r.status == "unavailable" then Some(OllamaStatusIndicator.Unavailable)
      else if r.status == "loading" then Some(OllamaStatusIndicator.Loading)
      else None;
    if status.Some? then Some(OllamaStatusIndicator.OllamaStatusData(status.value, r.lastChecked, r.models, r.error))
    else None
  }

  /**
   * End to end: after the status badge polls the status route, it lists
   * models exactly when Ollama answered the tag request with a non-empty
   * list, and its state is consistent.
   */
  lemma PanelShowsModelsIff(outcome: OllamaHealth.TagsOutcome, checkedAt: string, now: string)
    ensures StatusDataOf(OllamaEndpoints.GetOllamaStatus(OllamaHealth.HealthOf(outcome, checkedAt))).Some?
    ensures var d := StatusDataOf(OllamaEndpoints.GetOllamaStatus(OllamaHealth.HealthOf(outcome, checkedAt))).value;
            var shown := OllamaStatusIndicator.AfterFetch(OllamaStatusIndicator.Received(d), now);
            && (OllamaStatusIndicator.ShowsModelList(shown)
                <==> outcome.TagsReplied? && outcome.statusCode == 200
                     && outcome.names.Some? && |outcome.names.value| > 0)
            && OllamaStatusIndicator.Consistent(shown)
  {
    var h := OllamaHealth.HealthOf(outcome, checkedAt);
    OllamaHealth.HealthConsistent(outcome, checkedAt);
    if outcome.TagsReplied? && outcome.statusCode == 200 && outcome.names.Some? {
      assert |h.models| == |outcome.names.value| by {
        assert |multiset(h.models)| == |multiset(OllamaHealth.CleanedNames(outcome.names.value))|;
      }
    }
  }
}
