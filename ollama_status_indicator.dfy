/**
 * The status badge that polls the backend's Ollama status route: one state
 * cell holding the last status record, replaced on every poll.  The poll
 * timer is not modelled; each call of `FetchStatus` is one tick.
 */
module OllamaStatusIndicator {
  import opened Base
  import Js

  datatype StatusValue = Available | Unavailable | Loading

  /** The status record as the backend sends it; `error` is optional. */
  datatype OllamaStatusData = OllamaStatusData(
    status: StatusValue, lastChecked: string, models: seq<string>, error: Option<string>)

  /** What one `fetch` of the status route gives: a parsed body, a reply that is not ok, or a thrown value. */
  datatype StatusFetch = Received(data: OllamaStatusData) | NotOk | Failed(thrown: Js.Thrown)

  const NotOkMessage: string := "Failed to fetch Ollama status"
  const UnknownError: string := "Unknown error"

  /** The error text recorded for a failed poll: a non-ok reply throws an `Error` with a fixed message. */
  function FailureMessage(outcome: StatusFetch): (message: string)
    requires !outcome.Received?
    ensures outcome.NotOk? ==> message == NotOkMessage
    ensures outcome.Failed? && outcome.thrown.ErrorObject? ==> message == outcome.thrown.message
    ensures outcome.Failed? && outcome.thrown.OtherValue? ==> message == UnknownError
  {
    if outcome.NotOk? then NotOkMessage else Js.MessageOr(outcome.thrown, UnknownError)
  }

  /** The state before the first poll answers, stamped with the time the component was created. */
  function InitialStatus(now: string): (d: OllamaStatusData)
    ensures d.status == Loading && d.models == [] && d.error.None? && d.lastChecked == now
  {
    OllamaStatusData(Loading, now, [], None)
  }

  /** The state after one poll: the body wholesale, or an `unavailable` record stamped with the time of failure. */
  function AfterFetch(outcome: StatusFetch, now: string): (d: OllamaStatusData)
    ensures outcome.Received? ==> d == outcome.data
    ensures !outcome.Received? ==>
      d.status == Unavailable && d.models == [] && d.lastChecked == now
      && d.error == Some(FailureMessage(outcome))
  {
    if outcome.Received? then outcome.data
    else OllamaStatusData(Unavailable, now, [], Some(FailureMessage(outcome)))
  }

  /** The "Available Models" list is rendered. */
  predicate ShowsModelList(d: OllamaStatusData) {
    d.status == Available && |d.models| > 0
  }

  /** The error line is rendered: `statusData.error &&` needs a non-empty text. */
  predicate ShowsError(d: OllamaStatusData) {
    d.error.Some? && d.error.value != ""
  }

  /** A record that lists models says the service is available. */
  predicate Consistent(d: OllamaStatusData) {
    |d.models| > 0 ==> d.status == Available
  }

  /** The model list appears after a poll exactly when the body said `available` and listed models. */
  lemma ModelListAfterFetch(outcome: StatusFetch, now: string)
    ensures ShowsModelList(AfterFetch(outcome, now))
        <==> outcome.Received? && outcome.data.status == Available && |outcome.data.models| > 0
  {
  }

  /** A failed poll always shows an error line, unless an `Error` with an empty message was thrown. */
  lemma ErrorAfterFailure(outcome: StatusFetch, now: string)
    requires !outcome.Received?
    ensures ShowsError(AfterFetch(outcome, now))
        <==> !(outcome.Failed? && outcome.thrown == Js.ErrorObject(""))
    ensures !ShowsModelList(AfterFetch(outcome, now))
  {
    if outcome.Failed? && outcome.thrown.OtherValue? {
      assert UnknownError != "";
    }
  }

  /** Polling keeps the state consistent as long as the backend sends consistent records. */
  lemma FetchKeepsConsistent(outcome: StatusFetch, now: string)
    requires outcome.Received? ==> Consistent(outcome.data)
    ensures Consistent(AfterFetch(outcome, now))
  {
  }

  /** The component's single state cell. */
  class OllamaStatusPanel {
    var statusData: OllamaStatusData

    constructor (now: string)
      ensures statusData == InitialStatus(now)
    {
      statusData := OllamaStatusData(Loading, now, [], None);
    }

    /** One poll: the cell is replaced, whatever it held before. */
    method FetchStatus(outcome: StatusFetch, now: string)
      modifies this
      ensures statusData == AfterFetch(outcome, now)
    {
      if outcome.Received? {
        statusData := outcome.data;
      } else {
        var message := if outcome.NotOk? then NotOkMessage else Js.MessageOr(outcome.thrown, UnknownError);
        statusData := OllamaStatusData(Unavailable, now, [], Some(message));
      }
    }
  }
}
