/** Failure-compatible wrappers shared by every module of the model. */
module Wrappers {

  /** A value that may be missing: JavaScript's `null` / `undefined`. */
  datatype Option<+T> = None | Some(value: T)

  /** How a promise settles: resolved with a value, or rejected with an
      `Error` whose `message` may be empty (the empty string stands for a
      missing or empty message, which `message || fallback` replaces). */
  datatype Outcome<+T> = Ok(value: T) | Fail(message: string)

  /** `message || fallback`: an empty message is falsy in JavaScript. */
  function MessageOr(message: string, fallback: string): (r: string)
    ensures message != "" ==> r == message
    ensures message == "" ==> r == fallback
  {
    if message != "" then message else fallback
  }

  /** Truthiness of a `string | null` value. */
  predicate Truthy(s: Option<string>)
  {
    s.Some? && s.value != ""
  }
}
