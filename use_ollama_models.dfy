/**
 * The `useOllamaModels` hook: three state cells (status, models, error) that
 * every poll of the backend's Ollama status route overwrites.
 */
module UseOllamaModels {
  import opened Base
  import Js
  import opened OllamaStatusIndicator

  datatype HookState = HookState(status: StatusValue, models: seq<string>, error: Option<string>)

  /** The hook's cells before any poll answers. */
  function InitialHookState(): (h: HookState)
    ensures h.status == Loading && h.models == [] && h.error.None?
  {
    HookState(Loading, [], None)
  }

  /** The cells after one poll: the body's three fields, or `unavailable` with no models and the failure text. */
  function HookAfterFetch(outcome: StatusFetch): (h: HookState)
    ensures outcome.Received? ==>
      h.status == outcome.data.status && h.models == outcome.data.models && h.error == outcome.data.error
    ensures !outcome.Received? ==>
      h.status == Unavailable && h.models == [] && h.error == Some(FailureMessage(outcome))
  {
    if outcome.Received? then HookState(outcome.data.status, outcome.data.models, outcome.data.error)
    else HookState(Unavailable, [], Some(FailureMessage(outcome)))
  }

  /** The record's fields other than the time stamp. */
  function Project(d: OllamaStatusData): HookState {
    HookState(d.status, d.models, d.error)
  }

  /** The hook and the status badge agree after every poll and before the first one. */
  lemma HookAgreesWithPanel(outcome: StatusFetch, now: string)
    ensures HookAfterFetch(outcome) == Project(AfterFetch(outcome, now))
    ensures InitialHookState() == Project(InitialStatus(now))
  {
  }

  /** The hook's models are empty after any failed poll, and non-empty only when the body listed them. */
  lemma HookModelsAfterFetch(outcome: StatusFetch)
    ensures !outcome.Received? ==> HookAfterFetch(outcome).models == []
    ensures |HookAfterFetch(outcome).models| > 0 ==> outcome.Received? && |outcome.data.models| > 0
  {
  }

  /** The hook's three state cells. */
  class OllamaModelsHook {
    var status: StatusValue
    var models: seq<string>
    var error: Option<string>

    function State(): HookState
      reads this
    {
      HookState(status, models, error)
    }

    constructor ()
      ensures State() == InitialHookState()
    {
      status, models, error := Loading, [], None;
    }

    /** One poll overwrites all three cells. */
    method FetchStatus(outcome: StatusFetch)
      modifies this
      ensures State() == HookAfterFetch(outcome)
    {
      if outcome.Received? {
        status := outcome.data.status;
        models := outcome.data.models;
        error := outcome.data.error;
      } else {
        status := Unavailable;
        models := [];
        error := Some(if outcome.NotOk? then NotOkMessage else Js.MessageOr(outcome.thrown, UnknownError));
      }
    }
  }
}
