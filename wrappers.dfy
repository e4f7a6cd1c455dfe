/** Optional values and the outcome of one external step (an HTTP call, a
    chat-API call, a database write): it either returns a value or throws. */
module Wrappers {

  datatype Option<+T> = None | Some(value: T) {
    function GetOr(default: T): T {
      match this
      case Some(v) => v
      case None => default
    }
  }

  /** What one awaited external call did: resolved with a value, or threw. */
  datatype Outcome<+T> = Ok(value: T) | Throw

  /** JavaScript truthiness of an optional string: undefined and '' are falsy. */
  predicate Truthy(s: Option<string>) {
    s.Some? && s.value != ""
  }
}
