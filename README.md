# expand-o-matic prompt pipeline, modelled in Dafny

expand-o-matic is a prompt-engineering tool. A React client lets the user:

- pick a prompt category (expansion, compression, conversion, seeker, action, reasoning) and a mode;
- pick a model: Gemini, GPT-4 or a local Ollama model;
- optionally fill in a structured meta-prompt (purpose, instructions, sections, variables), by hand or from a built-in template;
- send the request to a Python backend.

The backend turns the meta-prompt into a system prompt and hands it to an LLM provider. A separate set of routes talks to a local Ollama server: it generates text and reports Ollama's health, which the client polls and displays.

This project models that core and proves properties of the model. Each model file corresponds to one source file.

| Dafny file | models | form |
|---|---|---|
| `template_loader.dfy` | `src/lib/templateLoader.ts`: the two built-in templates and the `TemplateLibrary` class | class over a `seq` of keys (the Map's insertion order) and a `map` |
| `prompt_system.dfy` | `src/components/PromptSystem.tsx`: the category table, model-id decoding, line-list fields, the preview, and the component's state cells and handlers | functions, plus the class `PromptEditor` whose fields are the `useState` cells |
| `model_selector.dfy` | `src/components/ModelSelector/ModelSelector.tsx` | functions and lemmas |
| `use_ollama_models.dfy` | `src/components/ModelSelector/useOllamaModels.ts` | class with the hook's three cells |
| `ollama_status_indicator.dfy` | `src/components/StatusIndicator/OllamaStatus.tsx` | class with the single status cell |
| `llm_service.dfy` | `src/lib/llmService.ts` | functions over the outcome of the HTTP exchange |
| `py_models.dfy` | `backend/models.py`: the two enums, the pydantic models with their defaults, and the two prompt schemas | datatypes, validation functions |
| `prompt_agent.dfy` | `backend/prompt_agent.py`: `create_system_prompt`, `get_model`, `process_prompt` | functions and lemmas |
| `backend_main.dfy` | `backend/main.py`: `LLMFactory.create_prompt` and `get_completion` | functions and lemmas |
| `ollama_endpoints.dfy` | `backend/api/ollama_endpoints.py`: the status and generate routes | functions and lemmas |
| `ollama_health.dfy` | `backend/docs/ollama_status.py`: `check_ollama_health` | a method with the clean-up loop, and the function specifying it |
| `wire.dfy` | the JSON boundary between the client and the backends | lemmas across the modules above |
| `text.dfy`, `seqs.dfy`, `sorting.dfy`, `base.dfy`, `js.dfy` | JavaScript and Python string, array and sorting semantics the core relies on | functions and lemmas |

Some inputs cannot be modelled directly, so they become parameters:

- the outcome of every HTTP call, agent run or provider SDK call (a reply, a status code, a timeout or an exception's text);
- the clock, as `now`/`date` strings.

JavaScript truthiness (the empty string is falsy) and Python truthiness (`0`, `0.0`, the empty dict and the empty list are falsy) are written out where the source relies on them. A JSON or dict field that may be absent, `null` or given is the datatype `PyModels.Field`.

## Model

| member | source | states |
|---|---|---|
| TemplateLoader.TemplateLibrary.constructor | src/lib/templateLoader.ts:79-87 | a new library maps exactly the two built-in templates, each under its `category:mode:id` key, keys in declaration order |
| TemplateLoader.TemplateLibrary.DefaultsLoaded | src/lib/templateLoader.ts:16-105 | a library holding just the defaults lists them in declaration order, finds each by its own triple, and lists for any category and mode exactly the defaults filtered by them |
| TemplateLoader.TemplateLibrary.LoadDefaultTemplates | src/lib/templateLoader.ts:83-87 | sets the content-generation template, then the explanation template, each under its key; a set key keeps its place in the order, and the map stays valid |
| TemplateLoader.TemplateLibrary.SetEach | src/lib/templateLoader.ts:84-86 | the `forEach` loop: the keys and map after it are those of setting each template in turn |
| TemplateLoader.TemplateLibrary.SetTwo | src/lib/templateLoader.ts:84-86 | setting two templates in turn puts the two keys in order, and the later entry wins on a shared key |
| TemplateLoader.TemplateLibrary.TwoRetrievable | src/lib/templateLoader.ts:89-96 | a library holding two templates under different keys lists both in insertion order and finds each by its triple |
| TemplateLoader.TemplateLibrary.Values | src/lib/templateLoader.ts:94 | `Array.from(map.values())` has one entry per key and holds exactly the map's values |
| TemplateLoader.TemplateLibrary.DistinctKeysCount | src/lib/templateLoader.ts:77 | the map has exactly as many entries as listed keys |
| TemplateLoader.TemplateLibrary.GetTemplate | src/lib/templateLoader.ts:89-91 | a template is found exactly when its joined key is in the map, and the one found is stored under that key |
| TemplateLoader.TemplateLibrary.GetTemplatesForCategory | src/lib/templateLoader.ts:93-96 | the result holds exactly the stored templates of that category |
| TemplateLoader.TemplateLibrary.GetTemplatesForMode | src/lib/templateLoader.ts:98-101 | the result holds exactly the stored templates of that category and mode |
| TemplateLoader.TemplateLibrary.ModeListingNarrowsCategoryListing | src/lib/templateLoader.ts:93-101 | the mode listing is the category listing filtered by mode, so it is an ordered part of it |
| TemplateLoader.TemplateLibrary.GetTemplateMatchesTriple | src/lib/templateLoader.ts:89-91 | with colon-free category and mode, a found template has exactly the triple asked for |
| TemplateLoader.TemplateLibrary.AddTemplate | src/lib/templateLoader.ts:103-105 | `set` under the joined key: a new key goes last; an existing key's entry is overwritten and the size is unchanged; every other entry is kept; the template is then found by its triple |
| TemplateLoader.PutKey | src/lib/templateLoader.ts:85 | insertion order of a JavaScript `Map`: a new key is appended and an existing key keeps its place |
| TemplateLoader.InOrder | src/lib/templateLoader.ts:94 | the values listed in key order, one per key |
| TemplateLoader.KeyInjective | src/lib/templateLoader.ts:85 | when category and mode hold no `:`, equal keys mean equal triples |
| TemplateLoader.ColonSplit | src/lib/templateLoader.ts:85 | a colon-free head before a `:` is determined by the joined string |
| TemplateLoader.KeyCollision | src/lib/templateLoader.ts:104 | the unescaped join maps the different triples (`a:b`,`c`) and (`a`,`b:c`) to one key |
| TemplateLoader.CollidingAdds | src/lib/templateLoader.ts:103-105 | adding two templates with colliding keys to a fresh library leaves three entries, and the lookup for the first triple yields the second template |
| TemplateLoader.DefaultKeysDiffer | src/lib/templateLoader.ts:16-74 | the two built-in templates have different keys |
| TemplateLoader.DefaultListing | src/lib/templateLoader.ts:98-101 | what a library of just the built-in templates lists for a category and mode (its members: `DefaultListingMembers`; tied to the class by `FreshListing` and `DefaultsLoaded`) |
| TemplateLoader.DefaultListingMembers | src/lib/templateLoader.ts:98-101 | the default listing holds exactly the built-in templates of that category and that mode |
| TemplateLoader.Key | src/lib/templateLoader.ts:85 | the key `${category}:${mode}:${id}` is two characters longer than its parts together (no escaping; `KeyInjective` and `KeyCollision` state when parts can be told apart) |
| TemplateLoader.KeyOf | src/lib/templateLoader.ts:104 | a template is stored under the key of its own category, mode and id (`DefaultKeysDiffer` shows the two built-in keys differ) |
| PromptSystem.TemplateEffect | src/components/PromptSystem.tsx:132-138 | the effect on `[activeCategory, mode]` as a state change (its properties: `TemplateEffectListing`) |
| PromptSystem.TemplateEffectListing | src/components/PromptSystem.tsx:132-138 | the effect changes the template list alone: with a category and a mode set it lists exactly the built-in templates of both, and with either empty it leaves the state as it is |
| TemplateLoader.FreshListing | src/components/PromptSystem.tsx:133-135 | `new TemplateLibrary().getTemplatesForMode(c, m)` is the defaults filtered by category `c` and mode `m` |
| TemplateLoader.ExplanationStoredUnderExplain | src/lib/templateLoader.ts:45-49 | no built-in template is listed under expansion/`explanation`; expansion/`explain` lists exactly the explanation template |
| PromptSystem.ExpansionModesListing | src/components/PromptSystem.tsx:43-49 | of the five expansion modes the editor offers, only `content` lists a built-in template; `explanation` lists none |
| PromptSystem.PromptEditor.constructor | src/components/PromptSystem.tsx:114-129 | the initial `useState` values: category `expansion`, empty mode, model `gemini`, an empty draft, nothing loaded |
| PromptSystem.PromptEditor.RefreshTemplates | src/components/PromptSystem.tsx:132-138 | the template effect: with category and mode both set, the template list becomes a fresh library's listing for them; otherwise nothing changes |
| PromptSystem.PromptEditor.SelectCategory | src/components/PromptSystem.tsx:237 | a tab click sets the category, then the template effect runs |
| PromptSystem.PromptEditor.SelectMode | src/components/PromptSystem.tsx:379 | the mode select sets the mode, then the template effect runs |
| PromptSystem.PromptEditor.SelectModel | src/components/PromptSystem.tsx:233 | the model picker's callback replaces the model cell only |
| PromptSystem.PromptEditor.EditInput | src/components/PromptSystem.tsx:404-405 | the input text area replaces the input cell only |
| PromptSystem.PromptEditor.SetStructured | src/components/PromptSystem.tsx:277-279 | the switch replaces the structured-mode flag only |
| PromptSystem.PromptEditor.EditPurpose | src/components/PromptSystem.tsx:315-316 | the purpose text area replaces the draft's purpose only |
| PromptSystem.PromptEditor.EditInstructions | src/components/PromptSystem.tsx:325-329 | the instructions text area replaces the draft's instructions by the text's non-blank lines |
| PromptSystem.PromptEditor.EditSections | src/components/PromptSystem.tsx:339-343 | the sections text area replaces the draft's sections by the text's non-blank lines |
| PromptSystem.PromptEditor.EditVariables | src/components/PromptSystem.tsx:351-355 | the variables text area replaces the draft's variables by the text's non-blank lines |
| PromptSystem.PromptEditor.LoadTemplate | src/components/PromptSystem.tsx:141-152 | a listed id replaces the draft by the first matching template's content and turns structured mode on; an unknown id changes nothing |
| PromptSystem.PromptEditor.SelectTemplate | src/components/PromptSystem.tsx:291-295 | the template select records the id, then loads it |
| PromptSystem.PromptEditor.BeginSubmit | src/components/PromptSystem.tsx:185-212 | a blank input changes nothing and sends nothing; otherwise loading starts, the error and response are cleared, and the request is built from the current cells; a click while the button is enabled always sends, and disables the button |
| PromptSystem.PromptEditor.CanSubmit | src/components/PromptSystem.tsx:425 | the Generate button is enabled when nothing is loading and the input is not blank (used by `BeginSubmit`'s contract) |
| PromptSystem.PromptEditor.FinishSubmit | src/components/PromptSystem.tsx:216-226 | a non-empty error text replaces the error cell; otherwise the content replaces the response cell; loading ends |
| PromptSystem.PromptEditor.HandleSubmit | src/components/PromptSystem.tsx:185-227 | a whole submission: nothing for a blank input; otherwise the request goes to the URL routed by provider, and the cells end as the transport outcome dictates |
| PromptSystem.GetModelName | src/components/PromptSystem.tsx:157-169 | for an `ollama:` identifier the name is whatever follows the marker (marker + name gives back the identifier); `gemini` and `gpt4` map to `gemini-pro` and `gpt-4`; any other identifier is its own name |
| PromptSystem.GetModelProvider | src/components/PromptSystem.tsx:171-183 | the provider is `ollama` exactly for `ollama:` identifiers and the bare identifier `ollama`; `gemini` and `gpt4` map to `google` and `openai`; any other identifier is its own provider |
| PromptSystem.DecodeOllama | src/components/PromptSystem.tsx:157-183 | an `ollama:` identifier decodes to provider `ollama` and the text after the marker |
| PromptSystem.DecodeHosted | src/components/PromptSystem.tsx:161-181 | `gemini` decodes to Google `gemini-pro` and `gpt4` to OpenAI `gpt-4` |
| PromptSystem.DecodePassThrough | src/components/PromptSystem.tsx:166-181 | any other identifier passes through as both provider and model name |
| PromptSystem.RoutesToGenerateIff | src/components/PromptSystem.tsx:193 | a request is posted to the Ollama route exactly for `ollama:` identifiers and the bare identifier `ollama` |
| PromptSystem.OptionsDecode | src/components/ModelSelector/ModelSelector.tsx:31-37 | every option the picker offers decodes to Google, OpenAI or Ollama, and local options decode to the name the picker shows as `actualModel` |
| PromptSystem.MarkerInsideDisagrees | src/components/ModelSelector/ModelSelector.tsx:15-16 | for `my-ollama:x` the picker shows the Ollama panel and the model `my-x`, while the editor sends provider `my-ollama:x` |
| PromptSystem.ParseLines | src/components/PromptSystem.tsx:328 | `split('\n').filter(line => line.trim())` keeps exactly the non-blank pieces, none holding a newline |
| PromptSystem.ParseJoinedLines | src/components/PromptSystem.tsx:325-328 | showing a list joined by newlines and parsing it back gives the list, when each item is one non-blank line |
| PromptSystem.ParseAppendedLine | src/components/PromptSystem.tsx:328 | a line added in front of the text joins the parsed list exactly when it is not blank |
| PromptSystem.IndentedEmptyIff | src/components/PromptSystem.tsx:366-368 | an indented listing is empty exactly when it has no items |
| PromptSystem.InstructionsPreview | src/components/PromptSystem.tsx:366 | the instructions block shows `...` exactly when there are no instructions |
| PromptSystem.Preview | src/components/PromptSystem.tsx:365-368 | the preview opens with the purpose block (`...` for an empty purpose); it ends with `</variables>` exactly when there are variables, and otherwise ends with the sections block exactly when there are sections |
| PromptSystem.PreviewWithoutLists | src/components/PromptSystem.tsx:365-368 | with sections and variables absent or empty, the preview is exactly the purpose block followed by the instructions block |
| PromptSystem.PreviewOfEmptyDraft | src/components/PromptSystem.tsx:365-368 | the initial draft previews as both placeholders with no sections or variables block |
| PromptSystem.FindTemplate | src/components/PromptSystem.tsx:142 | `find` yields a listed template with that id, and nothing exactly when none has it |
| PromptSystem.FindTemplateFirst | src/components/PromptSystem.tsx:142 | `find` yields the first listed template with that id |
| PromptSystem.DraftFrom | src/components/PromptSystem.tsx:144-149 | the loaded draft is the template's content, with absent lists as `[]` |
| PromptSystem.BuildRequest | src/components/PromptSystem.tsx:204-212 | the request carries the category as `mode` and the input as given, the draft exactly in structured mode, temperature 0.7 and 1000 tokens; an `ollama:` choice goes to provider `ollama` with the name after the marker |
| PromptSystem.RequestFields | src/components/PromptSystem.tsx:204-212 | the request carries the category (not the mode) as `mode`, the decoded provider and model, the input, the draft only in structured mode, temperature 0.7 and 1000 tokens |
| PromptSystem.ShownAfter | src/components/PromptSystem.tsx:216-220 | an error is shown exactly when the result's error is a non-empty text, and the response otherwise |
| PromptSystem.ShownForOutcome | src/components/PromptSystem.tsx:204-220 | success shows the content; a rejected post shows an error unless its detail is an empty list; an `Error` with an empty message shows neither |
| ModelSelector.ModelOptions | src/components/ModelSelector/ModelSelector.tsx:31-37 | the two hosted options, then `ollama:<name>` for each listed model, in order |
| ModelSelector.IsOllamaModelIff | src/components/ModelSelector/ModelSelector.tsx:15 | `includes('ollama:')` holds exactly when the marker occurs at some position |
| ModelSelector.ActualModelCutsFirstMarker | src/components/ModelSelector/ModelSelector.tsx:16 | `actualModel` cuts out the first occurrence of the marker, and is the identifier itself when there is none |
| ModelSelector.OptionsActualModel | src/components/ModelSelector/ModelSelector.tsx:33-37 | every local option maps back to the model name it was built from |
| UseOllamaModels.OllamaModelsHook.constructor | src/components/ModelSelector/useOllamaModels.ts:11-13 | the hook starts as `loading` with no models and no error |
| UseOllamaModels.OllamaModelsHook.FetchStatus | src/components/ModelSelector/useOllamaModels.ts:16-31 | one poll overwrites all three cells from the body, or with `unavailable`, no models and the failure text |
| UseOllamaModels.InitialHookState | src/components/ModelSelector/useOllamaModels.ts:11-13 | the initial cells: `loading`, no models, no error |
| UseOllamaModels.HookAfterFetch | src/components/ModelSelector/useOllamaModels.ts:16-31 | the cells after one poll: the body's status, models and error; or `unavailable`, no models and the failure text |
| UseOllamaModels.HookAgreesWithPanel | src/components/ModelSelector/useOllamaModels.ts:16-31 | the hook and the status badge hold the same status, models and error before and after every poll |
| UseOllamaModels.HookModelsAfterFetch | src/components/ModelSelector/useOllamaModels.ts:27-29 | a failed poll leaves no models; models come only from a body that lists them |
| OllamaStatusIndicator.OllamaStatusPanel.constructor | src/components/StatusIndicator/OllamaStatus.tsx:15-19 | the badge starts as `loading`, stamped with the creation time, with no models |
| OllamaStatusIndicator.OllamaStatusPanel.FetchStatus | src/components/StatusIndicator/OllamaStatus.tsx:22-38 | one poll replaces the cell with the body, or with an `unavailable` record stamped with the failure time |
| OllamaStatusIndicator.FailureMessage | src/components/StatusIndicator/OllamaStatus.tsx:25-35 | a reply that is not ok gives the fixed message; a thrown `Error` gives its message; any other thrown value gives `Unknown error` |
| OllamaStatusIndicator.InitialStatus | src/components/StatusIndicator/OllamaStatus.tsx:15-19 | `loading`, stamped with the given time, no models, no error |
| OllamaStatusIndicator.AfterFetch | src/components/StatusIndicator/OllamaStatus.tsx:22-38 | the body wholesale, or `unavailable` with no models, the failure text and the failure time |
| OllamaStatusIndicator.ModelListAfterFetch | src/components/StatusIndicator/OllamaStatus.tsx:55 | the model list shows after a poll exactly when the body said `available` and listed models |
| OllamaStatusIndicator.ErrorAfterFailure | src/components/StatusIndicator/OllamaStatus.tsx:65 | a failed poll shows an error line unless the thrown `Error` had an empty message, and never a model list |
| OllamaStatusIndicator.FetchKeepsConsistent | src/components/StatusIndicator/OllamaStatus.tsx:22-38 | polling keeps "models listed implies available" whenever the backend's records keep it |
| LlmService.ApiUrl | src/lib/llmService.ts:32-34 | the request goes to the Ollama generate route exactly when the provider is `ollama`, and to the prompt route otherwise |
| LlmService.SendPrompt | src/lib/llmService.ts:30-66 | never throws: success gives the content and no error; a rejected post gives a text `detail`, the fixed fallback when the detail is absent or the empty text, and `String()` of the list when it is a list of error objects (a list is truthy even when empty); a thrown `Error` gives its message, any other value the generic fallback; every failure has empty content |
| LlmService.RejectedErrorEmptyIff | src/lib/llmService.ts:50-54 | a rejected post always yields an error text, and that text is empty exactly when the detail is an empty list |
| LlmService.ValidationFailureText | src/lib/llmService.ts:50-54 | a validation failure with one error object reaches the caller as the error text `[object Object]` |
| Js.ObjectArrayText | src/lib/llmService.ts:53 | `String()` of an array of plain objects is empty exactly for the empty array, and otherwise `[object Object]` per element with commas between |
| PyModels.ParseMode | backend/models.py:6-12 | `PromptMode(s)` yields the member whose value is `s`, and nothing when no member has it |
| PyModels.ModeRoundTrip | backend/models.py:6-12 | each mode is recovered from its value |
| PyModels.ModeValues | backend/models.py:6-12 | exactly the six listed strings are modes |
| PyModels.ParseProvider | backend/models.py:14-19 | `LLMProvider(s)` yields the member whose value is `s`, and nothing when no member has it |
| PyModels.ProviderRoundTrip | backend/models.py:14-19 | each provider is recovered from its value |
| PyModels.ProviderValues | backend/models.py:14-19 | exactly the five listed strings are providers |
| PyModels.OptionalOr | backend/models.py:24-34 | an `Optional[...] = default` field: absent takes the default, `null` is `None`, and a value is kept |
| PyModels.ValidateMeta | backend/models.py:21-25 | a meta-prompt validates exactly when purpose and instructions are given; the lists default to `None` |
| PyModels.ValidateRequest | backend/models.py:27-34 | a request validates exactly when mode and provider parse, model and input are given, and any meta-prompt validates; temperature defaults to 0.7 and tokens to 1000 |
| PyModels.RequestDefaults | backend/models.py:32-34 | a body without optional fields gets no meta-prompt, temperature 0.7 and 1000 tokens |
| PyModels.AsDict | backend/main.py:55 | `meta_prompt.dict()` has all four keys, with an absent list as `None` |
| PyModels.ExpansionPrompt.Response | backend/models.py:46-51 | the response carries the expanded content, and no usage or error |
| PyModels.CompressionPrompt.Response | backend/models.py:58-63 | the response carries the compressed content, and no usage or error |
| PyModels.ResponseIgnoresParts | backend/models.py:41-63 | the response depends on the content alone, not on sections or key points |
| PromptAgent.CreateSystemPrompt | backend/prompt_agent.py:84-104 | without a meta-prompt, the prompt is the base line alone |
| PromptAgent.SystemPromptText | backend/prompt_agent.py:84-104 | with a meta-prompt, the base line, a blank line before the purpose and before each heading, one `- ` line per instruction and (when there are any) per section, in order |
| PromptAgent.BasePrompt | backend/prompt_agent.py:86 | the first line of every system prompt (its properties: `BasePromptMentions`) |
| PromptAgent.BasePromptMentions | backend/prompt_agent.py:86 | the first line opens by naming the mode as the expertise and closes with the date |
| PromptAgent.PromptParts | backend/prompt_agent.py:89-100 | the list of parts `create_system_prompt` joins (its shape: `PromptPartsShape`) |
| PromptAgent.PromptPartsShape | backend/prompt_agent.py:89-100 | the parts in order: base line, purpose line, instructions heading, one `- ` item per instruction, then the sections heading and one `- ` item per section exactly when there are sections |
| PromptAgent.PartsJoin | backend/prompt_agent.py:89-102 | `"\n".join(prompt_parts)` written out part by part |
| PromptAgent.JoinSectionsAfter | backend/prompt_agent.py:96-102 | the sections part adds its heading and lines after the instructions, or nothing when there are no sections |
| PromptAgent.SystemPromptIgnoresVariables | backend/prompt_agent.py:84-104 | the variables list never reaches the system prompt |
| PromptAgent.GetModel | backend/prompt_agent.py:106-116 | the hosted client exactly for `openai`, `anthropic` and `google`, the local client otherwise; name and sampling settings passed through |
| PromptAgent.TemperatureOr | backend/prompt_agent.py:150 | `temperature or 0.7`: an absent or zero temperature becomes 0.7 |
| PromptAgent.MaxTokensOr | backend/prompt_agent.py:151 | `max_tokens or 1000`: an absent or zero limit becomes 1000 |
| PromptAgent.DefaultsAreTruthy | backend/prompt_agent.py:150-151 | the model never gets a zero temperature or a zero token limit |
| PromptAgent.ExpansionResult.ToResponse | backend/prompt_agent.py:78-82 | the response carries the expanded content, and no usage or error |
| PromptAgent.ProcessPrompt | backend/prompt_agent.py:142-181 | the model and system prompt from the request; the expansion run exactly for mode `expansion`, the direct completion otherwise; its value becomes the response, and its failure a 500 with the exception text |
| PromptAgent.ProcessPromptSuccess | backend/prompt_agent.py:171-177 | a successful answer carries no error and no usage |
| PromptAgent.ZeroTemperatureReplaced | backend/prompt_agent.py:150 | a request temperature of 0 reaches the model as 0.7 |
| BackendMain.CreatePrompt | backend/main.py:35-51 | an absent or empty dict gives `""`, and only those give `""`; a missing `purpose` or `instructions` key raises `KeyError`; `None` instructions raise `TypeError` |
| BackendMain.JoinLongerThanHead | backend/main.py:51 | a join whose first part is non-empty is non-empty |
| BackendMain.MainPartsJoin | backend/main.py:39-51 | the joined parts written out, with the sections block exactly when `sections` is a non-empty list |
| BackendMain.DictPromptText | backend/main.py:35-51 | the prompt: the purpose line, the instructions heading and lines, then any sections |
| BackendMain.JoinPrependFirst | backend/main.py:51 | text put in front of a join's first part goes in front of the whole join |
| BackendMain.AgentPromptExtendsFactoryPrompt | backend/main.py:35-51 | for the same meta-prompt, the agent backend's system prompt is its expert line, a newline, and a newline followed by this backend's prompt |
| BackendMain.SystemPromptFor | backend/main.py:55 | no meta-prompt gives the empty system prompt; a meta-prompt gives the non-empty prompt of its dict form |
| BackendMain.ProviderCallFor | backend/main.py:58-129 | each provider gets its own call shape, and each shape belongs to exactly one provider |
| BackendMain.ProviderCallCarries | backend/main.py:58-129 | each call carries the system prompt and input (joined by a blank line for Google and Ollama), the model (not for LM Studio), the temperature, and the token limit (not for Ollama) |
| BackendMain.UsageFor | backend/main.py:68-129 | OpenAI and LM Studio pass the reply's usage through, Anthropic reports only the total, Google and Ollama report none |
| BackendMain.GetCompletion | backend/main.py:54-132 | the call for the request's provider; a reply becomes a response with its text and usage; any failure becomes a 500 with the exception text |
| BackendMain.NoMetaCombinedPrompt | backend/main.py:89-105 | without a meta-prompt, the Google and Ollama prompts start with the blank separator |
| OllamaEndpoints.PurposeText | backend/api/ollama_endpoints.py:60 | `meta.get('purpose', '')`: an absent key prints as empty and a value as itself |
| OllamaEndpoints.InstructionsText | backend/api/ollama_endpoints.py:64 | the instructions joined by newlines; `None` raises, and an absent key gives empty text |
| OllamaEndpoints.FormatPrompt | backend/api/ollama_endpoints.py:59-69 | the tagged prompt fails exactly for `None` instructions, and is longer than the input |
| OllamaEndpoints.BuildOllamaRequest | backend/api/ollama_endpoints.py:48-70 | model, `stream: False` and temperature from the request; the prompt is the input exactly when the meta-prompt is absent or empty, and the tagged prompt otherwise |
| OllamaEndpoints.TaggedPrompt | backend/api/ollama_endpoints.py:59-70 | the tagged prompt written out for a dict holding a purpose and instructions |
| OllamaEndpoints.GenerateText | backend/api/ollama_endpoints.py:42-97 | the route as written: a timeout is a 504; a non-200 reply, any other exception and a failure to build the prompt are each a 500 with `Error generating text: `; a 200 reply gives its `response` field or `""` |
| OllamaEndpoints.GenerateTextErrorsAre500 | backend/api/ollama_endpoints.py:78-97 | every error of the route as written is a 500, except the 504 of a timeout |
| OllamaEndpoints.UpstreamNotFoundBecomes500 | backend/api/ollama_endpoints.py:78-97 | Ollama's 404 for an unknown model reaches the client as a 500 |
| OllamaEndpoints.HttpExceptionText | backend/api/ollama_endpoints.py:92-97 | `str()` of an `HTTPException` as the generic handler embeds it: opens with the decimal status code and `: `, closes with `: ` and the detail |
| OllamaEndpoints.GenerateTextIntended | backend/api/ollama_endpoints.py:78-82 | a non-200 reply keeps Ollama's status code and the `Ollama API error: ` detail; every other case is as written |
| OllamaEndpoints.IntendedKeepsUpstreamStatus | backend/api/ollama_endpoints.py:78-85 | with the intended handling, Ollama's answer is an error exactly when it is not 200, and then carries Ollama's status code |
| OllamaEndpoints.GetOllamaStatus | backend/api/ollama_endpoints.py:24-34 | the health check's fields, with the status as its string value |
| OllamaEndpoints.StatusRouteConsistent | backend/api/ollama_endpoints.py:24-34 | the route reports models only with `available`, an error exactly when not `available`, and never `loading` |
| OllamaHealth.CleanName | backend/docs/ollama_status.py:45-46 | a name ending in `:latest` loses exactly that suffix; any other name is unchanged |
| OllamaHealth.CleanNameStripsOnce | backend/docs/ollama_status.py:45-46 | only one `:latest` is removed, whatever precedes it |
| OllamaHealth.CleanedNames | backend/docs/ollama_status.py:43-47 | one cleaned name per listed name, in order |
| OllamaHealth.CleanModelNames | backend/docs/ollama_status.py:41-48 | the loop and `models.sort()` give the cleaned names sorted: sorted, a permutation of them, and the sort of them |
| OllamaHealth.HealthOf | backend/docs/ollama_status.py:26-61 | `available` exactly for a 200 reply, never `loading`; an error exactly when not available (the fixed text for a non-200 reply, the exception text otherwise); the models are the cleaned names sorted, or none |
| OllamaHealth.HealthModelsDetermined | backend/docs/ollama_status.py:48 | the models listed are the only sorted arrangement of the cleaned names |
| OllamaHealth.HealthConsistent | backend/docs/ollama_status.py:26-61 | a record that lists models says `available` |
| OllamaHealth.CheckOllamaHealth | backend/docs/ollama_status.py:26-61 | the check yields the record `HealthOf` describes |
| Sorting.Insert | backend/docs/ollama_status.py:48 | inserting into a sorted list keeps it sorted and adds exactly that string |
| Sorting.Sort | backend/docs/ollama_status.py:48 | `list.sort()` on strings: sorted, and a permutation of the input |
| Sorting.SortedUnique | backend/docs/ollama_status.py:48 | two sorted lists holding the same strings are equal |
| Sorting.LexTotal | backend/docs/ollama_status.py:48 | Python's string `<=` relates every pair one way or the other |
| Sorting.LexTransitive | backend/docs/ollama_status.py:48 | Python's string `<=` is transitive |
| Sorting.LexAntisymmetric | backend/docs/ollama_status.py:48 | Python's string `<=` in both directions means equal strings |
| Text.IndexOf | src/components/ModelSelector/ModelSelector.tsx:16 | `indexOf` finds the first occurrence, and nothing exactly when there is none |
| Text.ReplacePrefix | src/components/PromptSystem.tsx:158-159 | replacing a prefix by nothing strips it |
| Text.Split | src/components/PromptSystem.tsx:328 | `split` yields at least one piece, none holding the separator |
| Text.SplitJoin | src/components/PromptSystem.tsx:325-328 | splitting a join of separator-free lines gives the lines back |
| Text.JoinSplit | src/components/PromptSystem.tsx:325-328 | joining the pieces of a split restores the text |
| Text.JoinPrefixed | backend/prompt_agent.py:92-93 | a heading and `- ` items joined by newlines: the heading, then one line per item in order |
| Text.NatToString | backend/api/ollama_endpoints.py:96 | a status code prints as a non-empty string of decimal digits |
| Seqs.Filter | src/lib/templateLoader.ts:95 | `filter` keeps exactly the passing elements, and is no longer than its input |
| Seqs.FilterAppend | src/lib/templateLoader.ts:95 | filtering a concatenation filters each part, keeping the order |
| Seqs.FilterNarrower | src/lib/templateLoader.ts:93-101 | filtering by a wider then a narrower predicate is filtering by the narrower alone |
| Wire.CategoriesAreModes | backend/models.py:6-12 | every category id of the editor is a backend `PromptMode` value |
| Wire.PickerProvidersParse | backend/models.py:14-19 | every provider the picker's options decode to is a backend `LLMProvider` value |
| Wire.EditorRequestValidates | backend/models.py:27-34 | a request for one of the editor's categories and a model the picker offers passes the backend's validation, with the draft and the sampling settings intact |
| Wire.UnknownProviderRejected | src/components/PromptSystem.tsx:180-181 | an identifier the picker does not offer (`llama3`) passes through as its own provider: the enum-typed backend of `backend/models.py` rejects the request, while the agent backend, whose `provider` is a plain string, routes it to its local client (`backend/prompt_agent.py:106-116`) |
| Wire.OmitNone | src/lib/llmService.ts:45 | `JSON.stringify` leaves out an absent optional field and writes a given one |
| Wire.EditorOllamaPrompt | backend/api/ollama_endpoints.py:48-70 | for a local model, Ollama receives the input itself, or in structured mode the tagged prompt with the draft's purpose and instructions, even when the draft is empty |
| Wire.StatusDataOf | src/components/StatusIndicator/OllamaStatus.tsx:28-29 | the status route's body read as the client's record; an unknown status text is not a record |
| Wire.PanelShowsModelsIff | src/components/StatusIndicator/OllamaStatus.tsx:55 | end to end, the badge lists models exactly when Ollama answered the tag request with a non-empty list, and its state stays consistent |

## Left out

- HTTP, timers and the network are not modelled; the outcome of each exchange is an input. This covers `fetch`, `setInterval`, httpx, `requests`, the OpenAI, Anthropic and Gemini SDKs, and pydantic-ai's `Agent.run` and `model.complete`.
- `monitor_ollama_status` and the `main` of `backend/docs/ollama_status.py` are left out. They are an endless polling loop with `print`, and one run of the loop is `CheckOllamaHealth`.
- `process_expansion` (`backend/prompt_agent.py:118-140`) runs inside the agent. Its result, an `ExpansionResult` or an exception text, is an input of `ProcessPrompt`.
- The clock is a parameter: `datetime.now()`, `new Date().toISOString()` and `strftime('%Y-%m-%d')` appear as the string parameters `now` and `date`.
- Floating-point temperatures are `real`. The source only copies them and compares them with 0.
- Concurrency is not modelled. A poll or a submission that resolves after a later one could overwrite newer state; the model assumes each one finishes before the next starts.
- React rendering, CSS and the console logging are not modelled. `ExpansionPromptInterface.tsx`, `Index.tsx` and `types.ts` are not part of this model.
- PromptSystem.PromptEditor.RefreshTemplates: the source creates a `TemplateLibrary` on every run of the effect. The model creates one only when both category and mode are set. An unused library is not observable.
- PromptSystem.PromptEditor.SelectCategory: a React state update and the effect it triggers are modelled as one step. The same holds for SelectMode.
- PromptSystem.PromptEditor.HandleSubmit: the `catch` of `handleSubmit` (`PromptSystem.tsx:221-223`) is not modelled. `sendPrompt` never throws, so that branch cannot run.
- The input counter shows `/ 1000 characters`, but the source enforces no limit, so none is modelled.
- OllamaEndpoints.GetOllamaStatus: the `except` of `get_ollama_status` (`ollama_endpoints.py:35-40`) is not modelled, because `check_ollama_health` catches every exception itself.
- LlmService.SendPrompt: an error body's `detail` is modelled as a text or a list of error objects, the two shapes FastAPI sends. A number, a boolean, a single object or `null` as `detail` is not modelled, and each error object renders as `[object Object]` whatever its fields.
- OllamaEndpoints.GenerateText: `str()` of an `HTTPException` is taken to be `"<status>: <detail>"`. A JSON `null` in the `response` field is not modelled.
- OllamaHealth.HealthOf: a tag entry without a `name` key raises `KeyError`, and that case is part of the `TagsRaised` input, with the exception text as given. A `models` value that is `null` or not a list is not modelled.
- BackendMain.GetCompletion: a provider reply missing the expected JSON keys is part of the `Failure` input. `usage` is treated as a map of token counts.
- BackendMain.CreatePrompt: a non-string `purpose` or instruction is not modelled. The dict's values are strings or `None`.
- Strings are sequences of characters. Unicode normalisation and the UTF-16 code units of JavaScript strings are not modelled.

## Findings

| source | as written | input that shows it | evidently intended | confidence | as-written member | corrected member |
|---|---|---|---|---|---|---|
| backend/api/ollama_endpoints.py:78-97 | the `HTTPException` raised for a non-200 Ollama reply is inside the `try`, so `except Exception` catches it and re-raises it as a 500 whose detail embeds the first exception's text | Ollama answers 404 `model not found`; the client receives 500 `Error generating text: 404: Ollama API error: model not found` | the client receives Ollama's own status code with the `Ollama API error: ` detail | not executed | OllamaEndpoints.UpstreamNotFoundBecomes500 | OllamaEndpoints.IntendedKeepsUpstreamStatus |
