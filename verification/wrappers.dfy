/** Small failure-carrying datatypes shared by the rest of the model. */
module Wrappers {

  /** A value that may be absent (a JavaScript property that may be `undefined`). */
  datatype Option<+T> = None | Some(value: T)

  /** The settled state of a promise that carries no value: resolved, or rejected with `error`. */
  datatype Outcome<+E> = Pass | Fail(error: E)
}
