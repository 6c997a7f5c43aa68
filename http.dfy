/**
 * The answer of an HTTP request made through `requests`: a response with a
 * status code and a body that may or may not decode as JSON, or a failure to
 * get any response at all (connection refused, timeout).
 */
module Http {
  import opened Wrappers
  import opened Json

  datatype Reply = Response(status: int, body: Option<Json>) | NoResponse

  /** `Response.raise_for_status()` raises `HTTPError` for client and server errors, 400 to 599. */
  predicate RaisesForStatus(status: int) {
    400 <= status < 600
  }
}
