/**
 * The observable result of one `fetch(url)` followed, when the callers get
 * that far, by `response.json()`. The network itself is not modelled: an
 * outcome is supplied from outside.
 */
module Fetch {
  import opened Optional
  import opened Json

  /**
   * `Threw`: the request itself rejected (network failure).
   * `Responded(status, body)`: a response arrived with HTTP `status`; `body`
   * is the parsed JSON, or `None` when `response.json()` would reject.
   */
  datatype Outcome = Threw | Responded(status: int, body: Option<Json>)

  /** `response.ok`: the status is in the range 200-299. */
  predicate IsOk(status: int) {
    200 <= status <= 299
  }

  /** The one case in which a caller reaches the parsed body. */
  predicate Delivered(o: Outcome) {
    o.Responded? && IsOk(o.status) && o.body.Some?
  }
}
