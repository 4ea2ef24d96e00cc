/** Values that may be absent, and the outcome of a call into the backend. */
module Outcomes {

  /** An optional value: `None` stands for JavaScript's `null` or `undefined`. */
  datatype Option<+T> = None | Some(value: T) {

    /** The value, or `d` when absent (`x ?? d`). */
    function GetOr(d: T): T {
      match this
      case Some(v) => v
      case None => d
    }
  }

  /**
   * What one HTTP call resolves to, as the calling component sees it: the
   * response body, or a rejected promise (network error, any non-2xx status).
   */
  datatype Outcome<+T> = Success(data: T) | Failure
}
