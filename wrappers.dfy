/** Option and result types shared by the whole model, and the shape of an HTTP failure
    as the client reads it (`err.status`, `err.error?.error`, `err.error?.message`,
    `err.error?.stockErrors`). */
module Wrappers {

  datatype Option<T> = None | Some(value: T)

  /** One line of the server's stock-shortfall report on accepting a request. */
  datatype StockError = StockError(componentName: string, requestedQuantity: int, availableQuantity: int)

  /** The body of a failed HTTP response, reduced to the fields the client looks at. */
  datatype ErrorBody = ErrorBody(error: Option<string>, message: Option<string>, stockErrors: Option<seq<StockError>>)

  datatype HttpError = HttpError(status: int, body: Option<ErrorBody>)

  /** The outcome of one request-response exchange with the server. */
  datatype Result<T> = Ok(value: T) | Err(error: HttpError)

  /** The value of `err.error?.error`, with JavaScript's `||` fallback: an absent or empty
      server message yields `default`. */
  function ServerMessageOr(e: HttpError, default: string): (m: string)
    ensures m == default || (e.body.Some? && e.body.value.error == Some(m) && m != "")
    ensures e.body.Some? && e.body.value.error.Some? && e.body.value.error.value != "" ==> m == e.body.value.error.value
  {
    if e.body.Some? && e.body.value.error.Some? && e.body.value.error.value != "" then e.body.value.error.value
    else default
  }

  /** The value of `error.error?.message || default`. */
  function ServerDetailOr(e: HttpError, default: string): (m: string)
    ensures m == default || (e.body.Some? && e.body.value.message == Some(m) && m != "")
    ensures e.body.Some? && e.body.value.message.Some? && e.body.value.message.value != "" ==> m == e.body.value.message.value
  {
    if e.body.Some? && e.body.value.message.Some? && e.body.value.message.value != "" then e.body.value.message.value
    else default
  }

  /** JavaScript truthiness of a numeric id that may be null: null and 0 are falsy. */
  predicate Truthy(id: Option<int>)
  {
    id.Some? && id.value != 0
  }
}
