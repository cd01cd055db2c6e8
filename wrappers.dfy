/** Failure-carrying values shared by the three request handlers. */
module Wrappers {

  /** A value that may be absent: an unset environment variable, a missing
      form field, a `null` body field or a completion without content. */
  datatype Option<+T> = None | Some(value: T) {
    function GetOr(default: T): T {
      match this
      case Some(v) => v
      case None => default
    }
  }

  /** The outcome of a call into a library or a remote service that can throw:
      either it returned a value, or it threw an error carrying `message`
      (JavaScript's `error.message`). */
  datatype Attempt<+T> = Done(value: T) | Threw(message: string)
}
