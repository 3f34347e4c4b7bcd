/** Optional values and the abstract outcome of a backend call. */
module Wrappers {

  datatype Option<+T> = None | Some(value: T)

  /** What an awaited REST call yields: the unwrapped payload, or a failure
      carrying the backend's `message` field when there was one. */
  datatype Outcome<+T> = Success(value: T) | Failure(message: Option<string>)

  /** JavaScript truthiness of an optional string: present and non-empty. */
  predicate Truthy(s: Option<string>)
  {
    s.Some? && s.value != ""
  }

  /** `message || fallback`: the backend's message when it is a non-empty
      string, the fixed fallback text otherwise. */
  function MessageOr(message: Option<string>, fallback: string): (r: string)
    ensures Truthy(message) ==> r == message.value
    ensures !Truthy(message) ==> r == fallback
    ensures fallback != "" ==> r != ""
  {
    if Truthy(message) then message.value else fallback
  }
}
