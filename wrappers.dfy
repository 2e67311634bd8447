/**
 * Small value wrappers shared by both stores.
 */
module Wrappers {

  /** An optional value: `None` stands for a missing key or an absent entity. */
  datatype Option<+T> = None | Some(value: T) {

    /** The carried value, or `default` when there is none. */
    function GetOr(default: T): T {
      match this
      case Some(v) => v
      case None => default
    }
  }

  /**
   * How one Remote API call settled. The HTTP client is not part of the
   * model: every asynchronous operation takes the server's answer as an input.
   * `Rejected` covers every exception the call can raise.
   */
  datatype Reply<+T> = Resolved(payload: T) | Rejected
}
