/** Values shared by every part of the model: optional values, JavaScript truthiness of
    strings, and the shapes in which a remote call can end. */
module Common {

  datatype Option<+T> = None | Some(value: T)

  /** JavaScript truthiness of a possibly missing string: `undefined`, `null` and `''`
      are falsy, every other string is truthy. */
  predicate Truthy(s: Option<string>)
  {
    s.Some? && s.value != ""
  }

  /** `a || b` on strings: the first operand when it is truthy, else the second. */
  function OrElse(a: Option<string>, b: string): (r: string)
    ensures Truthy(a) ==> r == a.value
    ensures !Truthy(a) ==> r == b
    ensures r == "" ==> (b == "" && (a.Some? ==> a.value == ""))
  {
    if Truthy(a) then a.value else b
  }

  /** What `String(v)` gives for a possibly `undefined` string value. */
  function TextOf(s: Option<string>): string
  {
    if s.Some? then s.value else "undefined"
  }

  /** An error thrown by an awaited call: the server's `response.data.message` when the
      error carries one, and the error's own `toString()` text. */
  datatype ApiError = ApiError(responseMessage: Option<string>, text: string)

  /** How an awaited call ends: it returns a value or it throws. */
  datatype Outcome<+T> = Returned(value: T) | Threw(error: ApiError)

  /** How a `fetch` whose body is not read ends: a response with its `ok` flag, or a
      network failure that makes `fetch` throw. */
  datatype FetchOutcome = Responded(ok: bool) | NetworkFailure

  predicate Succeeded(o: FetchOutcome)
  {
    o.Responded? && o.ok
  }
}
