/** Option and Outcome, the two failure-carrying shapes the model needs. */
module Wrappers {

  /** A value that may be absent: `null`/`undefined` in the source. */
  datatype Option<+T> = None | Some(value: T)

  /** Success without a value, or a failure carrying an error. */
  datatype Outcome<+E> = Pass | Fail(error: E)
}
