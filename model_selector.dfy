/**
 * The model picker: the option list it offers and what it derives from the
 * selected identifier (`isOllamaModel`, `actualModel`, whether the status panel shows).
 */
module ModelSelector {
  import opened Text

  const OllamaMarker: string := "ollama:"

  /** The `SelectItem` values: the two hosted models, then one `ollama:<name>` per listed local model. */
  function ModelOptions(models: seq<string>): (options: seq<string>)
    ensures |options| == 2 + |models|
    ensures options[0] == "gemini" && options[1] == "gpt4"
    ensures forall i :: 0 <= i < |models| ==> options[i + 2] == OllamaMarker + models[i]
  {
    ["gemini", "gpt4"] + seq(|models|, i requires 0 <= i < |models| => OllamaMarker + models[i])
  }

  /** `selectedModel.includes('ollama:')`: the marker anywhere, not only in front. */
  predicate IsOllamaModel(selected: string) {
    Contains(selected, OllamaMarker)
  }

  /** `selectedModel.replace('ollama:', '')` when the marker occurs, the identifier otherwise. */
  function ActualModel(selected: string): string {
    if IsOllamaModel(selected) then ReplaceFirst(selected, OllamaMarker, "") else selected
  }

  /** The `OllamaStatus` panel is rendered exactly for local-model selections. */
  predicate ShowsStatusPanel(selected: string) {
    IsOllamaModel(selected)
  }

  /** `isOllamaModel` holds exactly when the marker occurs at some position. */
  lemma IsOllamaModelIff(selected: string)
    ensures IsOllamaModel(selected) <==> exists i :: 0 <= i <= |selected| && OccursAt(selected, OllamaMarker, i)
  {
  }

  /** `actualModel` cuts out the first occurrence of the marker and keeps the rest in order. */
  lemma ActualModelCutsFirstMarker(selected: string)
    ensures !IsOllamaModel(selected) ==> ActualModel(selected) == selected
    ensures IsOllamaModel(selected) ==>
      exists i :: 0 <= i <= |selected| - |OllamaMarker| && OccursAt(selected, OllamaMarker, i)
        && (forall j :: 0 <= j < i ==> !OccursAt(selected, OllamaMarker, j))
        && ActualModel(selected) == selected[..i] + selected[i + |OllamaMarker|..]
  {
    if IsOllamaModel(selected) {
      var i := IndexOf(selected, OllamaMarker).value;
      assert OccursAt(selected, OllamaMarker, i);
    }
  }

  /** Every local-model option maps back to the name it was built from. */
  lemma OptionsActualModel(models: seq<string>, i: nat)
    requires i < |models|
    ensures IsOllamaModel(ModelOptions(models)[i + 2])
    ensures ActualModel(ModelOptions(models)[i + 2]) == models[i]
  {
    var option := ModelOptions(models)[i + 2];
    assert StartsWith(option, OllamaMarker);
    assert OccursAt(option, OllamaMarker, 0);
    ReplacePrefix(option, OllamaMarker);
    assert option[|OllamaMarker|..] == models[i];
  }
}
