/** The one piece of the `requests` library whose behaviour decides a branch here. */
module Http {

  /** `Response.raise_for_status()` raises an HTTPError for client errors (4xx) and
      server errors (5xx) and for nothing else: a 1xx, 2xx or 3xx status passes. */
  predicate RaisesForStatus(status: int) {
    400 <= status < 600
  }
}
