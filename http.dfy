/** What the API routes exchange with their callers and with the upstream gateway. */
module Http {
  import opened Wrappers
  import opened Json

  /** A status `fetch` can report: the Fetch standard restricts it to 200..599. */
  type HttpStatus = s: int | 200 <= s <= 599 witness 200

  /** `response.ok` */
  predicate IsOk(status: int) {
    200 <= status <= 299
  }

  /**
   * What the upstream gateway did with one request: `fetch` rejected
   * (network failure), or it answered with a status and a body, which is
   * `None` when the body is not JSON (so `response.json()` throws).
   */
  datatype Reply = Unreachable | Answered(status: HttpStatus, body: Option<Json>)

  /**
   * What a handler's `try` block can throw. The wording of the runtime's own
   * messages is not modelled; a configuration error carries the message the
   * source writes.
   */
  datatype Thrown =
    | RequestNotJson             // `request.json()` rejected
    | NullDestructured           // `const { ... } = null`
    | ConfigMissing(message: string)
    | NetworkFailure             // `fetch` rejected
    | ResponseNotJson            // `response.json()` rejected
    | NullPropertyRead(property: string)  // `null.property`
    | InvalidCharacter           // `btoa` of a non-Latin-1 string
    | NotCoercible               // a value with no usable `toString` converted to a number

  /** A JSON response: its HTTP status and its body (every route sends `application/json`). */
  datatype Response<B> = Response(status: int, body: B)

  /** The `error` text of every handler's catch-all 500 response in initiate and status. */
  const InternalServerError := "Internal server error"
}
