// The wrapper that waits for a promise on the script's side and calls back into Go.
module Promises {
  import opened Base
  import opened Programs

  datatype Callback = OnResolve | OnReject

  // How a promise settles.
  datatype Settled<V> = Fulfilled(value: V) | RejectedWith(undefined: bool)

  // __runtimeResolverResult: the callbacks it makes, in order; a resolve callback
  // that throws is answered by the reject callback.
  function Callbacks<V>(p: Settled<V>, resolveThrows: bool): seq<Callback> {
    match p
    case Fulfilled(_) => [OnResolve] + (if resolveThrows then [OnReject] else [])
    case RejectedWith(_) => [OnReject]
  }

  // What respondWith's promise is fulfilled with, as the response resolver sees it.
  datatype Answer =
    | NotResponse
    | NoBody(status: int)
    | TextBody(status: int)
    | ReaderBody(status: int)
    | Unreadable(status: int)

  // How the protocol takes it: a body that is no reader of ours makes the resolver
  // throw, and the rejector answers for it.
  function OutcomeOf(p: Settled<Answer>): Outcome {
    match p
    case RejectedWith(undefined) => if undefined then ErroredUndefined else Errored
    case Fulfilled(a) =>
      match a
      case NotResponse => NoContent
      case Unreadable(_) => Errored
      case _ => Copied(a.status)
  }
}
