/**
 * The analysis both story components receive from the analysis endpoint, and
 * how a finished request to that endpoint updates a component's `analysis`
 * and `error` state. The endpoint itself (transcription, text generation,
 * JSON parsing) is not modelled; its answer is an input.
 */
module AnalysisModel {
  import opened Wrappers

  /** One factor of an event: "a 1 in `oneInX` chance". Nothing checks that `oneInX` is at least 1. */
  datatype Condition = Condition(description: string, oneInX: real)

  datatype Event = Event(circumstance: string, conditions: seq<Condition>)

  datatype Analysis = Analysis(events: seq<Event>, finalOneInX: real, summary: string)

  /** How one request to the analysis endpoint ended, as the component sees it. */
  datatype Outcome =
      /** `fetch`, reading the body or parsing it threw; `None` when the thrown value is not an `Error`. */
    | Threw(message: Option<string>)
      /** The endpoint answered; `analysis` is the body's `analysis` field, `None` when it is absent. */
    | Responded(ok: bool, analysis: Option<Analysis>)

  /** The component's `analysis` and `error` once the request is over. */
  datatype Settlement = Settlement(analysis: Option<Analysis>, error: Option<string>)

  const GenericError := "An error occurred"

  /**
   * The `try`/`catch` of a component's analyze handler: a successful answer
   * replaces the analysis; a refused answer throws `failure`, and any error
   * is shown while the previous analysis is kept.
   */
  function Settle(outcome: Outcome, previous: Option<Analysis>, failure: string): (s: Settlement)
    ensures s.error.None? <==> outcome.Responded? && outcome.ok
    ensures s.error.None? ==> s.analysis == outcome.analysis
    ensures s.error.Some? ==> s.analysis == previous
    ensures outcome.Responded? && !outcome.ok ==> s.error == Some(failure)
    ensures outcome.Threw? ==> s.error == Some(outcome.message.GetOr(GenericError))
  {
    match outcome
    case Threw(m) => Settlement(previous, Some(m.GetOr(GenericError)))
    case Responded(ok, a) =>
      if ok then Settlement(a, None) else Settlement(previous, Some(failure))
  }
}
