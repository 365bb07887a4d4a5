/** How a response of the REST stream is processed (src/roq/gate_futures/gateway/order_entry.cpp). */
module RestResponse {
  import opened Common

  datatype Category = Unknown | Informational | Success | Redirection | ClientError | ServerError

  datatype Status = Conflict | Forbidden | Teapot | TooManyRequests | OtherStatus

  /** The exceptions that are caught, in the order of the catch clauses. */
  datatype Exception = OmsException | NetworkError | StandardException

  /** A response, or the network error that replaces it. `unexpected` is what expecting status 200 throws
      for a response that is neither; `failure` is what the success handler throws on this body, if anything. */
  datatype Response =
    | Failed(error: Exception)
    | Response(category: Category, status: Status, unexpected: Option<Exception>, failure: Option<Exception>)

  datatype Reason = RateLimited | Rejected | GatewayError | ExchangeError | OmsError

  /** What the handlers are called for. A success that throws has run, but not to its end. */
  datatype Call = SuccessHandler(completed: bool) | ErrorHandler(reason: Reason)

  /** The calls made, unless the process ends on the way. */
  datatype Outcome = Returned(calls: seq<Call>) | Aborted

  function Caught(e: Exception): Call {
    match e
    case OmsException => ErrorHandler(OmsError)
    case NetworkError => ErrorHandler(GatewayError)
    case StandardException => ErrorHandler(ExchangeError)
  }

  function Process(r: Response, asserts: bool): Outcome {
    match r
    case Failed(e) => Returned([Caught(e)])
    case Response(category, status, unexpected, failure) =>
      match category
      case Unknown => Returned(if unexpected.Some? then [Caught(unexpected.value)] else [])
      case Informational => Returned(if unexpected.Some? then [Caught(unexpected.value)] else [])
      case Success =>
        if failure.Some? then Returned([SuccessHandler(false), Caught(failure.value)])
        else Returned([SuccessHandler(true)])
      case Redirection => Aborted
      case ClientError =>
        (match status
         case Forbidden => Returned([ErrorHandler(RateLimited)])
         case Teapot => Returned([ErrorHandler(RateLimited)])
         case TooManyRequests => Returned([ErrorHandler(RateLimited)])
         case Conflict => if asserts then Aborted else Returned([ErrorHandler(Rejected)])
         case OtherStatus => Returned([ErrorHandler(Rejected)]))
      case ServerError => Returned([ErrorHandler(Rejected)])
  }

  /** The process survives every response but a redirect, and a 409 when assertions are compiled in. */
  predicate Survivable(r: Response, asserts: bool) {
    r.Response? ==> !r.category.Redirection? && !(r.category.ClientError? && r.status.Conflict? && asserts)
  }

  /** No handler runs twice, the error handler runs after the success handler only when that one threw, and
      nobody is told only when an unexpected category did not throw either. */
  lemma HandlersRunAtMostOnce(r: Response, asserts: bool)
    ensures Process(r, asserts).Aborted? <==> !Survivable(r, asserts)
    ensures Survivable(r, asserts) ==>
      var calls := Process(r, asserts).calls;
      && |calls| <= 2
      && (|calls| == 2 <==> r.Response? && r.category.Success? && r.failure.Some?)
      && (|calls| == 2 ==> calls[0] == SuccessHandler(false) && calls[1].ErrorHandler?)
      && (SuccessHandler(true) in calls <==> r.Response? && r.category.Success? && r.failure.None?)
      && (calls == [] <==> r.Response? && (r.category.Unknown? || r.category.Informational?) && r.unexpected.None?)
  {
  }
}
