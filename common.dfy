/** Values shared by every layer of the integration backend: optional JSON fields,
    the outcome of a call that may throw, and the text of the JavaScript engine's
    TypeError for a property read on `undefined`. */
module Common {

  /** An optional JSON field: absent (`undefined`) or present. */
  datatype Option<+T> = None | Some(value: T) {
    /** The value, or the default when absent (the `x || d` idiom for a
        field whose present values are all truthy). */
    function GetOr(default: T): T {
      match this
      case Some(v) => v
      case None => default
    }
  }

  /** The outcome of a call that either returns a value or throws an error with
      a message; a `try`/`catch` is a function of an `Outcome`. */
  datatype Outcome<+T> = Returned(value: T) | Raised(message: string)

  /** The message of the TypeError raised by reading property `prop` of
      `undefined` (V8's wording). */
  function UndefinedRead(prop: string): string {
    "Cannot read properties of undefined (reading '" + prop + "')"
  }
}
