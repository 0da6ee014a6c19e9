/** The `SendState` both message editors share (`CreateGratitudeViewModel`
    and `UpdateGratitudeViewModel` each declare an identical copy). */
module SendStates {
  import Wrappers

  datatype SendState = Idle | Sending | Success | Failure(message: string)

  /** The state a sink leaves: a received value means success, a failed
      completion carries the error's description. */
  function Completed(outcome: Wrappers.Outcome<string>): (r: SendState)
    ensures r.Success? <==> outcome.Pass?
    ensures r.Failure? <==> outcome.Fail?
    ensures outcome.Fail? ==> r.message == outcome.error
  {
    match outcome
    case Pass => Success
    case Fail(description) => Failure(description)
  }
}
