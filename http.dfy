/** HTTP exchanges as values. A transport is a function from the request
    sent to what came back: a response, a timeout, or another failure. */
module Http {
  import opened Wrappers

  datatype Verb = Get | Post

  /** One request: verb, URL, query parameters (None when not sent),
      headers and form fields. */
  datatype Request = Request(
    verb: Verb,
    url: string,
    params: Option<map<string, string>>,
    headers: map<string, string>,
    form: map<string, string>)

  /** A response whose body has type `B`: raw text for the dashboard, a
      decoded JSON document (None when it does not decode) for the feed. */
  datatype Response<B> = Response(status: int, headers: map<string, string>, body: B)

  datatype Outcome<B> = Answered(response: Response<B>) | TimedOut | Failed

  /** `resp.headers.get(name, "")`. */
  function Header<B>(r: Response<B>, name: string): string {
    if name in r.headers then r.headers[name] else ""
  }

  predicate IsRedirect(status: int) {
    status in {301, 302, 303, 307, 308}
  }

  /** The statuses for which `raise_for_status` raises. */
  predicate IsErrorStatus(status: int) {
    400 <= status < 600
  }
}
