/** Values shared by every part of the console model: optional values, outcomes
    of operations that can fail, and the shape of the HTTP requests the pages send. */
module Common {

  /** A value that may be absent (`undefined`/`null` in the console's JSON data). */
  datatype Option<+T> = None | Some(value: T) {
    /** `x || default` for a value whose present form is always truthy. */
    function GetOr(default: T): T {
      if Some? then value else default
    }
  }

  /** The result of an operation that either completes or throws `error`. */
  datatype Outcome<+E> = Pass | Fail(error: E)

  /** The result of an operation that either returns `value` or throws `error`. */
  datatype Result<+T, +E> = Ok(value: T) | Err(error: E)

  /** How an awaited `fetch` settles: it rejects (network failure) or resolves
      with a status, `ok` being the 2xx test of the Fetch API. */
  datatype Response = Rejected | Resolved(ok: bool) {
    predicate IsOk() {
      Resolved? && ok
    }
  }

  datatype Verb = Get | Post | Patch | Put | Delete

  /** A request as the pages build it: verb, absolute URL and optional JSON body. */
  datatype HttpRequest<B> = HttpRequest(verb: Verb, url: string, body: Option<B>)

  /** The backend address the pages hard-code. */
  const ApiBase: string := "http://localhost:3000"

  /** JavaScript truthiness of a string: only the empty string is falsy. */
  predicate Truthy(s: string) {
    s != ""
  }
}
