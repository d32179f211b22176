/** Option and Outcome: the `null`/`undefined` values and the caught exceptions of the page code. */
module Wrappers {

  /** A value that may be absent (`null` or `undefined` in the page code). */
  datatype Option<+T> = None | Some(value: T)

  /** The settled result of an asynchronous remote call: it resolved, or it rejected with an error. */
  datatype Outcome<+E> = Pass | Fail(error: E)
}
