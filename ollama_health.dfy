/**
 * The backend's Ollama health check: one request for the tag list, whose
 * outcome is an input, turned into a health record with the model names
 * cleaned of one `:latest` suffix and sorted.
 */
module OllamaHealth {
  import opened Base
  import opened Text
  import opened Sorting

  datatype HealthStatus = Available | Unavailable | Loading

  /** The string value of each status member. */
  function StatusText(s: HealthStatus): string {
    match s
    case Available => "available"
    case Unavailable => "unavailable"
    case Loading => "loading"
  }

  /** `OllamaHealthResponse`; `lastChecked` is the time of the check, as ISO text. */
  datatype HealthResponse = HealthResponse(
    status: HealthStatus, lastChecked: string, models: seq<string>, error: Option<string>)

  /** How the request for the tag list ended: a reply (with the names listed under `models`, if the key is there), or an exception's text. */
  datatype TagsOutcome = TagsReplied(statusCode: nat, names: Option<seq<string>>) | TagsRaised(message: string)

  const LatestSuffix: string := ":latest"
  const NotRespondingError: string := "Ollama service is not responding correctly"

  /** A model name without one trailing `:latest`. */
  function CleanName(name: string): (r: string)
    ensures EndsWith(name, LatestSuffix) ==> r + LatestSuffix == name
    ensures !EndsWith(name, LatestSuffix) ==> r == name
  {
    if EndsWith(name, LatestSuffix) then name[..|name| - 7] else name
  }

  /** Exactly one suffix is removed, whatever the name before it. */
  lemma CleanNameStripsOnce(name: string)
    ensures CleanName(name + LatestSuffix) == name
  {
    var s := name + LatestSuffix;
    assert s[|s| - 7..] == LatestSuffix;
  }

  /** The names after clean-up, one per input name, in input order. */
  function CleanedNames(names: seq<string>): (r: seq<string>)
    ensures |r| == |names| && forall k :: 0 <= k < |names| ==> r[k] == CleanName(names[k])
  {
    seq(|names|, k requires 0 <= k < |names| => CleanName(names[k]))
  }

  /** The loop over the tag list followed by `models.sort()`. */
  method CleanModelNames(names: seq<string>) returns (models: seq<string>)
    ensures Sorted(models)
    ensures multiset(models) == multiset(CleanedNames(names))
    ensures |models| == |names|
    ensures models == Sort(CleanedNames(names))
  {
    models := [];
    for i := 0 to |names|
      invariant |models| == i
      invariant forall k :: 0 <= k < i ==> models[k] == CleanName(names[k])
    {
      var name := names[i];
      if EndsWith(name, LatestSuffix) {
        name := name[..|name| - 7];
      }
      models := models + [name];
    }
    assert models == CleanedNames(names);
    models := Sort(models);
  }

  /** `check_ollama_health` on a given outcome of the tag request, at time `now`. */
  function HealthOf(outcome: TagsOutcome, now: string): (h: HealthResponse)
    ensures h.lastChecked == now
    ensures h.status == Available <==> outcome.TagsReplied? && outcome.statusCode == 200
    ensures h.status != Loading
    ensures h.error.None? <==> h.status == Available
    ensures outcome.TagsReplied? && outcome.statusCode != 200 ==> h.error == Some(NotRespondingError) && h.models == []
    ensures outcome.TagsRaised? ==> h.error == Some(outcome.message) && h.models == []
    ensures outcome.TagsReplied? && outcome.statusCode == 200 && outcome.names.None? ==> h.models == []
    ensures outcome.TagsReplied? && outcome.statusCode == 200 && outcome.names.Some? ==>
      Sorted(h.models) && multiset(h.models) == multiset(CleanedNames(outcome.names.value))
  {
    match outcome
    case TagsRaised(message) => HealthResponse(Unavailable, now, [], Some(message))
    case TagsReplied(code, names) =>
      if code != 200 then HealthResponse(Unavailable, now, [], Some(NotRespondingError))
      else if names.None? then HealthResponse(Available, now, [], None)
      else HealthResponse(Available, now, Sort(CleanedNames(names.value)), None)
  }

  /** The models listed are the only sorted arrangement of the cleaned names. */
  lemma HealthModelsDetermined(names: seq<string>, now: string, arranged: seq<string>)
    requires Sorted(arranged) && multiset(arranged) == multiset(CleanedNames(names))
    ensures HealthOf(TagsReplied(200, Some(names)), now).models == arranged
  {
    SortedUnique(Sort(CleanedNames(names)), arranged);
  }

  /** A record that lists models says the service is available. */
  lemma HealthConsistent(outcome: TagsOutcome, now: string)
    ensures |HealthOf(outcome, now).models| > 0 ==> HealthOf(outcome, now).status == Available
  {
  }

  /** The check itself: the clean-up loop, then the record. */
  method CheckOllamaHealth(outcome: TagsOutcome, now: string) returns (h: HealthResponse)
    ensures h == HealthOf(outcome, now)
  {
    match outcome {
      case TagsRaised(message) =>
        h := HealthResponse(Unavailable, now, [], Some(message));
      case TagsReplied(code, names) =>
        if code != 200 {
          h := HealthResponse(Unavailable, now, [], Some(NotRespondingError));
        } else {
          var models: seq<string> := [];
          if names.Some? {
            models := CleanModelNames(names.value);
          }
          h := HealthResponse(Available, now, models, None);
        }
    }
  }
}
