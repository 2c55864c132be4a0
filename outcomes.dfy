/** How one request ends, before it is rendered as a status and a body: the handler either
    resolves the postal code to a temperature or stops at the first stage that fails. */
module Outcomes {

  datatype Stage = Geocode | Weather

  datatype Cause = TransportFailure | DecodeFailure

  datatype Outcome<R> =
    | Resolved(result: R)
    | InvalidInput
    | NotFound
    | UpstreamFailure(stage: Stage, cause: Cause)
    | Aborted  // the handler panicked: nothing is written and the connection is dropped

  /** One stage's verdict: go on with a value, or stop with the request's outcome. */
  datatype Step<T, R> = Next(value: T) | Done(outcome: Outcome<R>)
}
