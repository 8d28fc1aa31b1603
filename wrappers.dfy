/** Option and Result datatypes shared by the whole model. */
module Wrappers {

  /** Python's `None` versus a present value. */
  datatype Option<+T> = None | Some(value: T)

  /** A call that returned `value` or raised `error`. */
  datatype Result<+R, +E> = Success(value: R) | Failure(error: E)
}
