/** Option and the thrown-value model shared by every module. */
module Wrappers {

  datatype Option<+T> = None | Some(value: T)

  /** A value raised by `throw`: an `Error` instance with its `message`,
      or any other thrown value (which carries no message). */
  datatype Thrown = Error(message: string) | NonError

  /** A call that returns normally, or throws. */
  datatype Outcome = Pass | Fail(error: Thrown)

  /** A call that returns a value, or throws. */
  datatype Result<+T> = Ok(value: T) | Err(error: Thrown)

  /** The message a catch block shows for a caught value:
      `error instanceof Error ? error.message : fallback`. */
  function MessageOr(e: Thrown, fallback: string): (m: string)
    ensures e.Error? ==> m == e.message
    ensures e.NonError? ==> m == fallback
  {
    match e
    case Error(msg) => msg
    case NonError => fallback
  }

  /** JavaScript truthiness of an optional string: defined and non-empty. */
  predicate Truthy(s: Option<string>) {
    s.Some? && s.value != ""
  }
}
