/**
 * The prompt editor component: its fixed category/mode table, the decoding of
 * a model identifier into provider and model name, the line-list fields, the
 * structure preview, and the component's state cells with the event handlers
 * that update them (template loading, field edits, submission).
 */
module PromptSystem {
  import opened Base
  import opened Text
  import opened Seqs
  import opened TemplateLoader
  import LlmService
  import ModelSelector
  import Js

  type MetaPromptConfig = LlmService.MetaPromptConfig

  /** A category of `promptTypes` with the ids of its modes. */
  datatype PromptType = PromptType(id: string, modes: seq<string>)

  /** The category ids and mode ids of `promptTypes`, in display order. */
  function PromptTypes(): seq<PromptType> {
    [PromptType("expansion", ["content", "explanation", "learning", "ideation", "story"]),
     PromptType("compression", ["summary", "key-points", "abstract"]),
     PromptType("conversion", ["text-to-code", "text-to-sql", "format"]),
     PromptType("seeker", ["qa", "extraction", "search"]),
     PromptType("action", ["automation", "command", "workflow"]),
     PromptType("reasoning", ["decision", "planning", "problem"])]
  }

  const OllamaMarker: string := "ollama:"
  const RequestTemperature: real := 0.7
  const RequestMaxTokens: int := 1000

  /**
   * `getModelName`: the marker stripped, the two hosted names looked up, anything else unchanged.
   * Whatever follows the marker is the model name, even when it contains the marker again.
   */
  function GetModelName(modelId: string): (name: string)
    ensures StartsWith(modelId, OllamaMarker) ==> OllamaMarker + name == modelId
    ensures modelId == "gemini" ==> name == "gemini-pro"
    ensures modelId == "gpt4" ==> name == "gpt-4"
    ensures !StartsWith(modelId, OllamaMarker) && modelId != "gemini" && modelId != "gpt4" ==> name == modelId
  {
    if StartsWith(modelId, OllamaMarker) then
      ReplacePrefix(modelId, OllamaMarker);
      assert modelId == modelId[..|OllamaMarker|] + modelId[|OllamaMarker|..];
      ReplaceFirst(modelId, OllamaMarker, "")
    else if modelId == "gemini" then "gemini-pro"
    else if modelId == "gpt4" then "gpt-4"
    else modelId
  }

  /**
   * `getModelProvider`: `ollama` for the marker, the two hosted vendors, anything else unchanged;
   * so the provider is `ollama` for the marked identifiers and for the bare identifier `ollama`.
   */
  function GetModelProvider(modelId: string): (provider: string)
    ensures provider == "ollama" <==> StartsWith(modelId, OllamaMarker) || modelId == "ollama"
    ensures modelId == "gemini" ==> provider == "google"
    ensures modelId == "gpt4" ==> provider == "openai"
    ensures !StartsWith(modelId, OllamaMarker) && modelId != "gemini" && modelId != "gpt4" ==> provider == modelId
  {
    if StartsWith(modelId, OllamaMarker) then "ollama"
    else if modelId == "gemini" then "google"
    else if modelId == "gpt4" then "openai"
    else modelId
  }

  /** An `ollama:` identifier decodes to the local provider and the text after the marker, whatever it is. */
  lemma DecodeOllama(name: string)
    ensures GetModelProvider(OllamaMarker + name) == "ollama"
    ensures GetModelName(OllamaMarker + name) == name
  {
    var id := OllamaMarker + name;
    assert StartsWith(id, OllamaMarker);
    ReplacePrefix(id, OllamaMarker);
    assert id[|OllamaMarker|..] == name;
  }

  /** The two hosted identifiers decode through the lookup table. */
  lemma DecodeHosted()
    ensures (GetModelProvider("gemini"), GetModelName("gemini")) == ("google", "gemini-pro")
    ensures (GetModelProvider("gpt4"), GetModelName("gpt4")) == ("openai", "gpt-4")
  {
  }

  /** Any other identifier passes through as both provider and model. */
  lemma DecodePassThrough(modelId: string)
    requires !StartsWith(modelId, OllamaMarker) && modelId != "gemini" && modelId != "gpt4"
    ensures GetModelProvider(modelId) == modelId && GetModelName(modelId) == modelId
  {
  }

  /** A request is posted to the local-model endpoint exactly for `ollama:` identifiers and the bare identifier `ollama`. */
  lemma RoutesToGenerateIff(apiBase: string, modelId: string)
    ensures LlmService.ApiUrl(apiBase, GetModelProvider(modelId)) == apiBase + LlmService.GeneratePath
        <==> StartsWith(modelId, OllamaMarker) || modelId == "ollama"
  {
    if modelId == "ollama" {
      assert !StartsWith(modelId, OllamaMarker) by { assert |modelId| < |OllamaMarker|; }
    }
  }

  /** Every option the picker offers decodes to a known provider, and local options agree with the picker's `actualModel`. */
  lemma OptionsDecode(models: seq<string>, k: nat)
    requires k < |ModelSelector.ModelOptions(models)|
    ensures var option := ModelSelector.ModelOptions(models)[k];
            GetModelProvider(option) in {"google", "openai", "ollama"}
            && (GetModelProvider(option) == "ollama" <==> k >= 2)
            && (k >= 2 ==> GetModelName(option) == models[k - 2] == ModelSelector.ActualModel(option))
  {
    var option := ModelSelector.ModelOptions(models)[k];
    if k >= 2 {
      assert option == OllamaMarker + models[k - 2];
      DecodeOllama(models[k - 2]);
      ModelSelector.OptionsActualModel(models, k - 2);
    } else {
      assert !StartsWith(option, OllamaMarker) by { assert |option| < |OllamaMarker|; }
    }
  }

  /** The picker and the editor disagree on an identifier holding the marker past its start. */
  lemma MarkerInsideDisagrees()
    ensures ModelSelector.ShowsStatusPanel("my-ollama:x")
    ensures ModelSelector.ActualModel("my-ollama:x") == "my-x"
    ensures GetModelProvider("my-ollama:x") == "my-ollama:x"
  {
    var id := "my-ollama:x";
    assert OccursAt(id, OllamaMarker, 3);
    assert forall j :: 0 <= j < 3 ==> !OccursAt(id, OllamaMarker, j) by {
      assert id[0] != 'o' && id[1] != 'o' && id[2] != 'o';
    }
    assert IndexOf(id, OllamaMarker) == Some(3);
    assert !StartsWith(id, OllamaMarker) by { assert id[0] != 'o'; }
  }

  /** The filter callback `line => line.trim()`. */
  function NotBlank(): string -> bool {
    (line: string) => !IsBlank(line)
  }

  /** `text.split('\n').filter(line => line.trim())`: the lines that are not blank, in order. */
  function ParseLines(text: string): (lines: seq<string>)
    ensures forall line :: line in lines <==> line in Split(text, '\n') && !IsBlank(line)
    ensures forall k :: 0 <= k < |lines| ==> '\n' !in lines[k]
  {
    var pieces := Split(text, '\n');
    var lines := Filter(pieces, NotBlank());
    assert forall k :: 0 <= k < |lines| ==> lines[k] in pieces;
    lines
  }

  /** Showing a list as `list.join('\n')` and parsing the text back gives the list again, when every item is one non-blank line. */
  lemma ParseJoinedLines(lines: seq<string>)
    requires forall k :: 0 <= k < |lines| ==> '\n' !in lines[k] && !IsBlank(lines[k])
    ensures ParseLines(Join(lines, "\n")) == lines
  {
    if lines == [] {
      assert Split("", '\n') == [""];
      assert IsBlank("");
      assert Filter([""], NotBlank()) == [];
    } else {
      SplitJoin(lines, '\n');
      FilterKeepsAll(lines, NotBlank());
    }
  }

  /** Adding a line to the text adds it to the parsed list exactly when it is not blank. */
  lemma ParseAppendedLine(text: string, line: string)
    requires '\n' !in line
    ensures ParseLines(line + "\n" + text) == (if IsBlank(line) then [] else [line]) + ParseLines(text)
  {
    SplitAfterLine(line, '\n', text);
    FilterAppend([line], Split(text, '\n'), NotBlank());
    FilterSingle(line, NotBlank());
  }

  /** The item lines of a preview block: each item indented by two spaces. */
  function Indented(items: seq<string>): string {
    Join(Prefixed("  ", items), "\n")
  }

  /** An indented listing is empty exactly when there are no items, and otherwise starts with the indentation. */
  lemma IndentedEmptyIff(items: seq<string>)
    ensures Indented(items) == "" <==> items == []
    ensures items != [] ==> Indented(items)[0] == ' '
  {
    if items != [] {
      assert Prefixed("  ", items) == ["  " + items[0]] + Prefixed("  ", items[1..]);
      JoinPrefixed("  " + items[0], "  ", items[1..]);
      assert Indented(items) == "  " + items[0] + Lines("  ", items[1..]);
    }
  }

  /** The body of the instructions block: the indented items, or `...` when there are none. */
  function InstructionsPreview(instructions: seq<string>): (text: string)
    ensures text == "..." <==> instructions == []
  {
    IndentedEmptyIff(instructions);
    var listing := Indented(instructions);
    if listing == "" then "..." else listing
  }

  /** The purpose block of the preview, with `...` for an empty purpose. */
  function PurposeBlock(purpose: string): string {
    "<purpose>\n" + (if purpose == "" then "..." else purpose) + "\n</purpose>\n\n"
  }

  /** The instructions block of the preview. */
  function InstructionsBlock(instructions: seq<string>): string {
    "<instructions>\n" + InstructionsPreview(instructions) + InstructionsClosing
  }

  /** The sections block of the preview, shown only for a non-empty list. */
  function SectionsBlock(sections: Option<seq<string>>): string {
    if sections.Some? && |sections.value| > 0
    then "<sections>\n" + Indented(sections.value) + "\n</sections>\n\n" else ""
  }

  /** The variables block of the preview, shown only for a non-empty list; it closes the text. */
  function VariablesBlock(variables: Option<seq<string>>): string {
    if variables.Some? && |variables.value| > 0
    then "<variables>\n" + Indented(variables.value) + "\n</variables>" else ""
  }

  /**
   * The "Final Prompt Structure" preview text: it opens with the purpose,
   * and closes with the variables exactly when there are any, and otherwise
   * with the sections exactly when there are any.
   */
  function Preview(meta: MetaPromptConfig): (r: string)
    ensures StartsWith(r, "<purpose>\n" + (if meta.purpose == "" then "..." else meta.purpose) + "\n</purpose>\n\n")
    ensures EndsWith(r, "</variables>") <==> meta.variables.Some? && |meta.variables.value| > 0
    ensures !(meta.variables.Some? && |meta.variables.value| > 0) ==>
              (EndsWith(r, "</sections>\n\n") <==> meta.sections.Some? && |meta.sections.value| > 0)
  {
    var purpose := PurposeBlock(meta.purpose);
    var instructions := InstructionsBlock(meta.instructions);
    var sections := SectionsBlock(meta.sections);
    var variables := VariablesBlock(meta.variables);
    PreviewShape(purpose, instructions, sections, variables, meta);
    purpose + instructions + sections + variables
  }

  /** How the blocks' ends decide the preview's end. */
  lemma PreviewShape(purpose: string, instructions: string, sections: string, variables: string,
                     meta: MetaPromptConfig)
    requires purpose == PurposeBlock(meta.purpose) && instructions == InstructionsBlock(meta.instructions)
    requires sections == SectionsBlock(meta.sections) && variables == VariablesBlock(meta.variables)
    ensures StartsWith(purpose + instructions + sections + variables, purpose)
    ensures EndsWith(purpose + instructions + sections + variables, "</variables>")
            <==> meta.variables.Some? && |meta.variables.value| > 0
    ensures !(meta.variables.Some? && |meta.variables.value| > 0) ==>
              (EndsWith(purpose + instructions + sections + variables, "</sections>\n\n")
               <==> meta.sections.Some? && |meta.sections.value| > 0)
  {
    assert purpose + instructions + sections + variables == purpose + (instructions + sections + variables);
    StartsWithAppend(purpose, instructions + sections + variables);
    var body := purpose + instructions + sections;
    if meta.variables.Some? && |meta.variables.value| > 0 {
      VariablesBlockEnd(body, meta.variables.value);
    } else {
      assert body + variables == body;
      if meta.sections.Some? && |meta.sections.value| > 0 {
        SectionsBlockEnd(purpose + instructions, meta.sections.value);
      } else {
        assert body == purpose + instructions;
        InstructionsBlockEnd(purpose, meta.instructions);
      }
    }
  }

  /** A text closed by a non-empty variables block ends with its closing tag. */
  lemma VariablesBlockEnd(before: string, variables: seq<string>)
    requires |variables| > 0
    ensures EndsWith(before + VariablesBlock(Some(variables)), "</variables>")
  {
    var tail := "\n</variables>";
    var head := before + "<variables>\n" + Indented(variables);
    assert before + VariablesBlock(Some(variables)) == head + tail;
    EndsWithAppend(head, tail, "</variables>");
  }

  /** A text closed by a non-empty sections block ends with its closing tag and two newlines. */
  lemma SectionsBlockEnd(before: string, sections: seq<string>)
    requires |sections| > 0
    ensures EndsWith(before + SectionsBlock(Some(sections)), "</sections>\n\n")
    ensures !EndsWith(before + SectionsBlock(Some(sections)), "</variables>")
  {
    var tail := "\n</sections>\n\n";
    var head := before + "<sections>\n" + Indented(sections);
    assert before + SectionsBlock(Some(sections)) == head + tail;
    EndsWithAppend(head, tail, "</sections>\n\n");
    EndsWithAppend(head, tail, "</variables>");
    NotEndsWithAt(tail, "</variables>", 11);
  }

  /** A text closed by the instructions block ends with neither the sections nor the variables tag. */
  lemma InstructionsBlockEnd(before: string, instructions: seq<string>)
    ensures !EndsWith(before + InstructionsBlock(instructions), "</sections>\n\n")
    ensures !EndsWith(before + InstructionsBlock(instructions), "</variables>")
  {
    var head := before + "<instructions>\n" + InstructionsPreview(instructions);
    assert before + InstructionsBlock(instructions) == head + InstructionsClosing;
    InstructionsClosingEnd(head);
  }

  const InstructionsClosing: string := "\n</instructions>\n\n"

  /** The closing tag of the instructions block is neither the sections nor the variables tag. */
  lemma InstructionsClosingEnd(head: string)
    ensures !EndsWith(head + InstructionsClosing, "</sections>\n\n")
    ensures !EndsWith(head + InstructionsClosing, "</variables>")
  {
    EndsWithAppend(head, InstructionsClosing, "</sections>\n\n");
    EndsWithAppend(head, InstructionsClosing, "</variables>");
    NotEndsWithAt(InstructionsClosing, "</sections>\n\n", 0);
    NotEndsWithAt(InstructionsClosing, "</variables>", 11);
  }

  /** Without sections or variables, the preview is the purpose block followed by the instructions block. */
  lemma PreviewWithoutLists(meta: MetaPromptConfig)
    requires meta.sections.None? || meta.sections.value == []
    requires meta.variables.None? || meta.variables.value == []
    ensures Preview(meta) == "<purpose>\n" + (if meta.purpose == "" then "..." else meta.purpose) + "\n</purpose>\n\n"
                             + "<instructions>\n" + InstructionsPreview(meta.instructions) + "\n</instructions>\n\n"
  {
    assert SectionsBlock(meta.sections) == "" && VariablesBlock(meta.variables) == "";
    assert Preview(meta) == PurposeBlock(meta.purpose) + InstructionsBlock(meta.instructions) + "" + "";
  }

  /** The preview of an empty draft shows both placeholders and no sections or variables block. */
  lemma PreviewOfEmptyDraft()
    ensures Preview(LlmService.MetaPromptConfig("", [], Some([]), Some([])))
         == "<purpose>\n" + "..." + "\n</purpose>\n\n" + "<instructions>\n" + "..." + "\n</instructions>\n\n"
  {
    assert InstructionsPreview([]) == "...";
  }

  /** `templates.find(t => t.id === templateId)`: a listed template with that id, if there is one. */
  function FindTemplate(templates: seq<PromptTemplate>, templateId: string): (r: Option<PromptTemplate>)
    ensures r.None? <==> forall k :: 0 <= k < |templates| ==> templates[k].id != templateId
    ensures r.Some? ==> r.value in templates && r.value.id == templateId
  {
    if templates == [] then None
    else if templates[0].id == templateId then Some(templates[0])
    else FindTemplate(templates[1..], templateId)
  }

  /** The template found is the first one listed with that id. */
  lemma {:induction false} FindTemplateFirst(templates: seq<PromptTemplate>, templateId: string, k: nat)
    requires k < |templates| && templates[k].id == templateId
    requires forall j :: 0 <= j < k ==> templates[j].id != templateId
    ensures FindTemplate(templates, templateId) == Some(templates[k])
  {
    if k > 0 {
      assert templates[0].id != templateId;
      assert forall j :: 0 <= j < k - 1 ==> templates[1..][j] == templates[j + 1];
      FindTemplateFirst(templates[1..], templateId, k - 1);
    }
  }

  /** The draft `loadTemplate` installs: the template's content, with absent lists as `[]`. */
  function DraftFrom(t: PromptTemplate): (meta: MetaPromptConfig)
    ensures meta.purpose == t.content.purpose && meta.instructions == t.content.instructions
    ensures meta.sections == Some(if t.content.sections.Some? then t.content.sections.value else [])
    ensures meta.variables == Some(if t.content.variables.Some? then t.content.variables.value else [])
  {
    LlmService.MetaPromptConfig(
      t.content.purpose, t.content.instructions,
      Some(t.content.sections.GetOr([])), Some(t.content.variables.GetOr([])))
  }

  /**
   * The request `handleSubmit` passes to `sendPrompt`: the draft goes along only
   * in structured mode, with the fixed sampling settings, and an `ollama:` choice
   * carries the name after the marker.
   */
  function BuildRequest(activeCategory: string, modelId: string, input: string,
                        useMetaPrompt: bool, metaPrompt: MetaPromptConfig): (r: LlmService.PromptRequest)
    ensures r.mode == activeCategory && r.inputText == input
    ensures r.metaPrompt.Some? <==> useMetaPrompt
    ensures r.temperature == Some(0.7) && r.maxTokens == Some(1000)
    ensures StartsWith(modelId, OllamaMarker) ==> r.provider == "ollama" && OllamaMarker + r.model == modelId
  {
    LlmService.PromptRequest(
      activeCategory, GetModelProvider(modelId), GetModelName(modelId), input,
      if useMetaPrompt then Some(metaPrompt) else None,
      Some(RequestTemperature), Some(RequestMaxTokens))
  }

  /** The category, not the selected mode, is sent as `mode`; the draft is sent verbatim only in structured mode. */
  lemma RequestFields(activeCategory: string, mode: string, modelId: string, input: string,
                      useMetaPrompt: bool, metaPrompt: MetaPromptConfig)
    ensures var r := BuildRequest(activeCategory, modelId, input, useMetaPrompt, metaPrompt);
            && r.mode == activeCategory
            && (r.provider, r.model) == (GetModelProvider(modelId), GetModelName(modelId))
            && r.inputText == input
            && (r.metaPrompt.Some? <==> useMetaPrompt)
            && (useMetaPrompt ==> r.metaPrompt.value == metaPrompt)
            && r.temperature == Some(0.7) && r.maxTokens == Some(1000)
  {
  }

  /** What the editor shows once a result arrives: `if (result.error)` is a truthiness test. */
  datatype Shown = Shown(error: Option<string>, response: string)

  function ShownAfter(result: LlmService.SendResult): (shown: Shown)
    ensures shown.error.Some? <==> result.error.Some? && result.error.value != ""
    ensures shown.error.Some? ==> shown.error == result.error && shown.response == ""
    ensures shown.error.None? ==> shown.response == result.content
  {
    if result.error.Some? && result.error.value != "" then Shown(result.error, "")
    else Shown(None, result.content)
  }

  /**
   * Each transport outcome as the user sees it; a rejection shows an error
   * unless its detail is an empty list, and an `Error` with an empty message
   * shows neither error nor text.
   */
  lemma ShownForOutcome(outcome: LlmService.PostOutcome)
    ensures outcome.Succeeded? ==> ShownAfter(LlmService.SendPrompt(outcome)) == Shown(None, outcome.content)
    ensures outcome.Rejected? ==>
              (ShownAfter(LlmService.SendPrompt(outcome)).error.Some?
               <==> outcome.detail != Some(LlmService.ErrorList(0)))
              && ShownAfter(LlmService.SendPrompt(outcome)).response == ""
    ensures outcome == LlmService.Threw(Js.ErrorObject(""))
            ==> ShownAfter(LlmService.SendPrompt(outcome)) == Shown(None, "")
  {
    LlmService.RejectedErrorEmptyIff(if outcome.Rejected? then outcome.detail else None);
  }

  /** All state cells of the component at one moment. */
  datatype EditorState = EditorState(
    activeCategory: string,
    mode: string,
    model: string,
    input: string,
    useMetaPrompt: bool,
    metaPrompt: MetaPromptConfig,
    selectedTemplate: string,
    templates: seq<PromptTemplate>,
    isLoading: bool,
    response: string,
    error: Option<string>)

  /** The effect on `[activeCategory, mode]`: with both non-empty, the templates a fresh library lists for them; otherwise the list is kept. */
  function TemplateEffect(s: EditorState): EditorState {
    if s.activeCategory != "" && s.mode != ""
    then s.(templates := DefaultListing(s.activeCategory, s.mode))
    else s
  }

  /**
   * The effect changes the template list alone: with a category and a mode it
   * lists exactly the defaults stored under both, and with either empty it does nothing.
   */
  lemma TemplateEffectListing(s: EditorState)
    ensures TemplateEffect(s) == s.(templates := TemplateEffect(s).templates)
    ensures s.activeCategory != "" && s.mode != "" ==>
              forall t :: t in TemplateEffect(s).templates
                          <==> t in DefaultTemplates && t.category == s.activeCategory && t.mode == s.mode
    ensures s.activeCategory == "" || s.mode == "" ==> TemplateEffect(s) == s
  {
    DefaultListingMembers(s.activeCategory, s.mode);
  }

  /** The state cells of `PromptSystem` and its event handlers. */
  class PromptEditor {
    var activeCategory: string
    var mode: string
    var model: string
    var input: string
    var useMetaPrompt: bool
    var metaPrompt: MetaPromptConfig
    var selectedTemplate: string
    var templates: seq<PromptTemplate>
    var isLoading: bool
    var response: string
    var error: Option<string>

    function State(): EditorState
      reads this
    {
      EditorState(activeCategory, mode, model, input, useMetaPrompt, metaPrompt,
                  selectedTemplate, templates, isLoading, response, error)
    }

    /** The submit button is enabled when nothing is loading and the input is not blank. */
    predicate CanSubmit()
      reads this
    {
      !isLoading && !IsBlank(input)
    }

    /** The initial `useState` values; the mount-time template effect loads nothing because the mode is empty. */
    constructor ()
      ensures State() == EditorState("expansion", "", "gemini", "", false,
                                     LlmService.MetaPromptConfig("", [], Some([]), Some([])),
                                     "", [], false, "", None)
    {
      activeCategory, mode, model, input := "expansion", "", "gemini", "";
      useMetaPrompt := false;
      metaPrompt := LlmService.MetaPromptConfig("", [], Some([]), Some([]));
      selectedTemplate, templates := "", [];
      isLoading, response, error := false, "", None;
    }

    /** The template effect: a fresh library's listing for the category and mode, when both are set. */
    method RefreshTemplates()
      modifies this
      ensures State() == TemplateEffect(old(State()))
    {
      if activeCategory != "" && mode != "" {
        templates := FreshListing(activeCategory, mode);
      }
    }

    /** A tab click: `setActiveCategory`, after which the template effect runs. */
    method SelectCategory(category: string)
      modifies this
      ensures State() == TemplateEffect(old(State()).(activeCategory := category))
    {
      activeCategory := category;
      RefreshTemplates();
    }

    /** The mode select: `setMode`, after which the template effect runs. */
    method SelectMode(newMode: string)
      modifies this
      ensures State() == TemplateEffect(old(State()).(mode := newMode))
    {
      mode := newMode;
      RefreshTemplates();
    }

    /** The model picker's `onModelSelect`. */
    method SelectModel(modelId: string)
      modifies this
      ensures State() == old(State()).(model := modelId)
    {
      model := modelId;
    }

    /** The input text area. */
    method EditInput(text: string)
      modifies this
      ensures State() == old(State()).(input := text)
    {
      input := text;
    }

    /** The "Structured Prompt" switch. */
    method SetStructured(on: bool)
      modifies this
      ensures State() == old(State()).(useMetaPrompt := on)
    {
      useMetaPrompt := on;
    }

    /** The purpose text area. */
    method EditPurpose(text: string)
      modifies this
      ensures State() == old(State()).(metaPrompt := old(metaPrompt).(purpose := text))
    {
      metaPrompt := metaPrompt.(purpose := text);
    }

    /** The instructions text area, one instruction per non-blank line. */
    method EditInstructions(text: string)
      modifies this
      ensures State() == old(State()).(metaPrompt := old(metaPrompt).(instructions := ParseLines(text)))
    {
      metaPrompt := metaPrompt.(instructions := ParseLines(text));
    }

    /** The required-sections text area, one section per non-blank line. */
    method EditSections(text: string)
      modifies this
      ensures State() == old(State()).(metaPrompt := old(metaPrompt).(sections := Some(ParseLines(text))))
    {
      metaPrompt := metaPrompt.(sections := Some(ParseLines(text)));
    }

    /** The input-variables text area, one variable per non-blank line. */
    method EditVariables(text: string)
      modifies this
      ensures State() == old(State()).(metaPrompt := old(metaPrompt).(variables := Some(ParseLines(text))))
    {
      metaPrompt := metaPrompt.(variables := Some(ParseLines(text)));
    }

    /** `loadTemplate`: a listed id replaces the draft and turns structured mode on; an unknown id changes nothing. */
    method LoadTemplate(templateId: string)
      modifies this
      ensures FindTemplate(old(templates), templateId).None? ==> State() == old(State())
      ensures FindTemplate(old(templates), templateId).Some? ==>
        State() == old(State()).(metaPrompt := DraftFrom(FindTemplate(old(templates), templateId).value),
                                 useMetaPrompt := true)
    {
      var template := FindTemplate(templates, templateId);
      if template.Some? {
        metaPrompt := DraftFrom(template.value);
        useMetaPrompt := true;
      }
    }

    /** The template select's `onValueChange`: remember the choice, then load it. */
    method SelectTemplate(value: string)
      modifies this
      ensures FindTemplate(old(templates), value).None? ==> State() == old(State()).(selectedTemplate := value)
      ensures FindTemplate(old(templates), value).Some? ==>
        State() == old(State()).(selectedTemplate := value,
                                 metaPrompt := DraftFrom(FindTemplate(old(templates), value).value),
                                 useMetaPrompt := true)
    {
      selectedTemplate := value;
      LoadTemplate(value);
    }

    /** `handleSubmit` up to the `await`: a blank input returns at once; otherwise clear the result, mark loading and build the request. */
    method BeginSubmit() returns (request: Option<LlmService.PromptRequest>)
      modifies this
      ensures IsBlank(old(input)) ==> request.None? && State() == old(State())
      ensures !IsBlank(old(input)) ==>
        && request == Some(BuildRequest(activeCategory, model, input, useMetaPrompt, metaPrompt))
        && State() == old(State()).(isLoading := true, error := None, response := "")
      ensures old(CanSubmit()) ==> request.Some? && isLoading && !CanSubmit()
    {
      if IsBlank(input) {
        return None;
      }
      isLoading := true;
      error := None;
      response := "";
      request := Some(BuildRequest(activeCategory, model, input, useMetaPrompt, metaPrompt));
    }

    /** `handleSubmit` after the `await`: an error text replaces the error cell, otherwise the content the response cell; loading ends. */
    method FinishSubmit(result: LlmService.SendResult)
      modifies this
      ensures var shown := ShownAfter(result);
        State() == old(State()).(isLoading := false,
                                 error := if shown.error.Some? then shown.error else old(error),
                                 response := if shown.error.Some? then old(response) else shown.response)
    {
      if result.error.Some? && result.error.value != "" {
        error := result.error;
      } else {
        response := result.content;
      }
      isLoading := false;
    }

    /** A whole submission with no other event in between: begin, post to the routed URL, finish. */
    method HandleSubmit(apiBase: string, outcome: LlmService.PostOutcome)
      returns (url: Option<string>, request: Option<LlmService.PromptRequest>)
      modifies this
      ensures IsBlank(old(input)) ==> url.None? && request.None? && State() == old(State())
      ensures !IsBlank(old(input)) ==>
        && request == Some(BuildRequest(activeCategory, model, input, useMetaPrompt, metaPrompt))
        && url == Some(LlmService.ApiUrl(apiBase, GetModelProvider(model)))
        && var shown := ShownAfter(LlmService.SendPrompt(outcome));
           State() == old(State()).(isLoading := false, error := shown.error, response := shown.response)
    {
      request := BeginSubmit();
      if request.None? {
        return None, None;
      }
      url := Some(LlmService.ApiUrl(apiBase, request.value.provider));
      FinishSubmit(LlmService.SendPrompt(outcome));
    }
  }

  /** No expansion mode the editor offers lists the explanation template: it is filed under `explain`. */
  lemma ExpansionModesListing()
    ensures PromptTypes()[0].id == "expansion"
    ensures forall m :: m in PromptTypes()[0].modes && m != "content" ==>
              DefaultListing("expansion", m) == []
    ensures DefaultListing("expansion", "content") == [ContentGeneration]
  {
    forall m | m in PromptTypes()[0].modes
      ensures DefaultListing("expansion", m) == if m == "content" then [ContentGeneration] else []
    {
      FilterTwo(ContentGeneration, Explanation, CategoryAndModeAre("expansion", m));
    }
  }
}
