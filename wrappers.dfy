/** An optional value and the outcome of an external call, shared by the other modules. */
module Wrappers {

  /** An optional value. */
  datatype Option<+T> = None | Some(value: T)

  /**
   * The outcome of one call to an external service (the playlist service or
   * the document store): it either returns a value or throws.
   */
  datatype Outcome<+T> = Ok(value: T) | Fail
}
