/** Shared vocabulary of the booking back end and its pages: identifiers,
    optional values, the error kinds a route answers with, and JavaScript
    truthiness of the request fields. */
module Common {

  /** Every document identifier (users, services, bookings, reviews, events).
      The server mixes ObjectIds and their string forms; the model uses one
      abstract identifier type for both. */
  type Id = nat

  datatype Option<+T> = None | Some(value: T)

  /** The HTTP error answers of the routes. */
  datatype ErrorKind =
    | BadRequest     // 400
    | EmailUsed      // 400 with `{ emailUsed: true }`
    | Unauthorized   // 401
    | Forbidden      // 403
    | NotFound       // 404
    | ServerError    // 500, e.g. a property read on a missing document

  datatype Result<+T> = Ok(value: T) | Err(error: ErrorKind)

  /** JavaScript truthiness of a string field: `undefined`, `null` and "" are falsy. */
  predicate Truthy(s: string) {
    s != ""
  }

  /** Truthiness of an optional string field (`None` is `undefined` / `null`). */
  predicate TruthyOpt(o: Option<string>) {
    o.Some? && o.value != ""
  }

  /** `x || fallback` on a string. */
  function OrElse(s: string, fallback: string): (r: string)
    ensures Truthy(s) ==> r == s
    ensures !Truthy(s) ==> r == fallback
  {
    if s != "" then s else fallback
  }

  /** `x || null` on an optional string: falsy values become `null`. */
  function OrNull(o: Option<string>): (r: Option<string>)
    ensures r.Some? <==> TruthyOpt(o)
    ensures r.Some? ==> r == o
  {
    if TruthyOpt(o) then o else None
  }
}
