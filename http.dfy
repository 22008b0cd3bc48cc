/**
 * How every screen of the client reads a fetch response. A response is an
 * input to the model: an ok status with its parsed JSON body, a non-ok status
 * with the `errors` member of its JSON body, or a request that never completed.
 */
module Http {
  import opened Common

  /** The `errors` member of an error body: an array, a string (what the server sends), or absent. */
  datatype ErrorsField = ErrorList(items: seq<string>) | ErrorText(text: string) | NoErrorsField

  datatype Response<T> =
    | Ok(body: Option<T>)                          // response.ok; None when the body is not JSON
    | NotOk(status: int, errors: Option<ErrorsField>) // None when the body is not JSON
    | TransportFailure                             // fetch itself rejected

  /** What reaches a `.catch`: the rejected `errors` value, or an Error that was thrown. */
  datatype Rejection = Rejected(errors: ErrorsField) | Thrown

  /**
   * The shared `.then` step: an ok response yields its parsed body, a non-ok
   * one rejects with its `errors` member, and an unparsable body or a failed
   * request rejects with an Error.
   */
  function Outcome<T>(resp: Response<T>): (r: Result<T, Rejection>)
    ensures r.Success? <==> resp.Ok? && resp.body.Some?
    ensures r.Success? ==> r.value == resp.body.value
    ensures r.Failure? && r.error.Rejected? <==> resp.NotOk? && resp.errors.Some?
  {
    match resp
    case Ok(Some(b)) => Success(b)
    case NotOk(_, Some(e)) => Failure(Rejected(e))
    case _ => Failure(Thrown)
  }

  /** `Array.isArray(err) ? err : [fallback]`. */
  function ErrorMessages(rej: Rejection, fallback: string): (r: seq<string>)
    ensures rej.Rejected? && rej.errors.ErrorList? ==> r == rej.errors.items
    ensures !(rej.Rejected? && rej.errors.ErrorList?) ==> r == [fallback]
  {
    if rej.Rejected? && rej.errors.ErrorList? then rej.errors.items else [fallback]
  }

  /** The server sends `errors` as a string, so the client always shows its own fallback text. */
  lemma StringErrorsShowFallback<T>(status: int, text: string, fallback: string)
    ensures ErrorMessages(Outcome<T>(NotOk(status, Some(ErrorText(text)))).error, fallback) == [fallback]
  {
  }

  /** The list of messages is empty only when the server sent an empty `errors` array. */
  lemma NoMessagesOnlyForEmptyArray(rej: Rejection, fallback: string)
    ensures ErrorMessages(rej, fallback) == [] <==> rej == Rejected(ErrorList([]))
  {
  }
}
