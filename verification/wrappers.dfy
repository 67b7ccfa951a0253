/** Failure-carrying results shared by the modules of this model. */
module Wrappers {

  /** Python's `None`-or-value. */
  datatype Option<+T> = None | Some(value: T)

  /** A value, or the exception a Python call raises instead of returning. */
  datatype Result<+T, +E> = Ok(value: T) | Err(error: E)

  /** The outcome of a Python call that returns nothing but may raise. */
  datatype Outcome<+E> = Pass | Fail(error: E)
}
