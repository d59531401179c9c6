/** Option and the settled result of an awaited request. */
module Wrappers {

  datatype Option<+T> = None | Some(value: T) {
    function GetOr(default: T): T {
      match this
      case Some(v) => v
      case None => default
    }
  }

  /** How an awaited request settled: with the response body, or with an
      error whose response may carry the server's `msg` field. */
  datatype Outcome<+T> = Success(data: T) | Failure(msg: Option<string>)

  /** `err.response?.data?.msg || fallback`: a missing or empty server
      message falls back to the page's own text. */
  function MessageOr(msg: Option<string>, fallback: string): (r: string)
    ensures msg.Some? && msg.value != [] ==> r == msg.value
    ensures msg.None? || msg.value == [] ==> r == fallback
  {
    if msg.Some? && msg.value != [] then msg.value else fallback
  }
}
