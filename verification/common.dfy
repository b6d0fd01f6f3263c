/** Values shared by both dashboard pages: optional values, results, what a `fetch`
    call produced, and the requests the pages issue. */
module Common {

  datatype Option<+T> = None | Some(value: T) {
    /** The value, or `default` when absent (JavaScript's `x || default` on a field
        that is either present or undefined). */
    function GetOr(default: T): T {
      match this
      case Some(v) => v
      case None => default
    }
  }

  datatype Result<+T, +E> = Ok(value: T) | Err(error: E)

  /** JavaScript truthiness of a string read from `localStorage` or the environment:
      `null` (absent) and the empty string are both falsy. */
  predicate Truthy(s: Option<string>) {
    s.Some? && s.value != ""
  }

  /** What a rejected promise carried: an `Error` object with its message, or some
      other thrown value. */
  datatype Thrown = ErrorObject(message: string) | NonError

  /** What one `fetch` call produced: a response (status code, status text and the
      body as the caller reads it) or a thrown value (network failure). */
  datatype HttpOutcome<B> = Response(status: int, statusText: string, body: B) | Threw(thrown: Thrown)

  /** `response.ok`: the status is in the 2xx range. */
  predicate IsOk(status: int) {
    200 <= status <= 299
  }

  /** A request a page hands to `fetch`: verb, URL, bearer token (if any) and body (if any). */
  datatype Request<B> = Request(verb: string, url: string, bearer: Option<string>, body: Option<B>)

  const FallbackApiUrl: string := "http://localhost:8000"

  /** `import.meta.env.VITE_API_URL || 'http://localhost:8000'`: the base URL both pages
      start from. */
  function DefaultApiUrl(env: Option<string>): (url: string)
    ensures url != ""
    ensures Truthy(env) ==> url == env.value
    ensures !Truthy(env) ==> url == FallbackApiUrl
    ensures url == FallbackApiUrl <==> !Truthy(env) || env.value == FallbackApiUrl
  {
    if Truthy(env) then env.value else FallbackApiUrl
  }
}
