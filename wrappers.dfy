/** Option and the outcome of one request to the back end, as the front end sees it. */
module Wrappers {

  datatype Option<+T> = None | Some(value: T) {
    /** The wrapped value, or `default` when there is none. */
    function GetOr(default: T): T {
      match this
      case Some(v) => v
      case None => default
    }
  }

  /** What a `fetch` followed by `response.json()` yields: a body with an ok
      status, a body with an error status carrying the server's `message`, or
      a thrown error (no connection, or a body that is not JSON). */
  datatype Response<+T> = Ok(body: T) | Err(message: string) | ConnFail
}
