/** What one `fetch` call can come back with, as the page handlers see it,
    and the JavaScript truthiness of the pages' `error` cell. */
module Fetch {
  import opened Wrappers

  /** `Ok`: the response has `ok` set and its body decodes to `body`.
      `NotOk`: the server answered with an error status.
      `Rejected`: the promise was rejected (network failure) with `message`. */
  datatype Response<+T> = Ok(body: T) | NotOk | Rejected(message: string)

  /** The message a handler's `catch` stores in `error` for a failed request:
      a non-ok status throws the handler's own message, a rejection carries
      its own. */
  function FailureMessage<T>(r: Response<T>, notOkMessage: string): (m: string)
    requires !r.Ok?
    ensures r.NotOk? ==> m == notOkMessage
    ensures r.Rejected? ==> m == r.message
  {
    match r
    case NotOk => notOkMessage
    case Rejected(message) => message
  }

  /** `error ? … : …`: `null` and the empty string are falsy. */
  predicate Truthy(error: Option<string>) {
    error.Some? && error.value != ""
  }
}
