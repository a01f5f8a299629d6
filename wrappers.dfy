/** Option and Result values used across the model in place of JavaScript's
    `undefined`/`null` and of thrown errors. */
module Wrappers {

  datatype Option<+T> = None | Some(value: T) {
    /** The value when present, else `default` (JavaScript's `x ?? default`). */
    function GetOr(default: T): T {
      match this
      case Some(v) => v
      case None => default
    }
  }

  /** A field after a partial update: the supplied value when there is one,
      otherwise the value before. */
  predicate Merged<T(==)>(supplied: Option<T>, before: T, after: T) {
    (supplied.Some? ==> after == supplied.value) && (supplied.None? ==> after == before)
  }

  /** Outcome of an operation that can fail with a message, as a thrown `Error` does. */
  datatype Result<+T> = Ok(value: T) | Err(message: string)
}
