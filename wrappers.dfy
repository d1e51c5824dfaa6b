/** Option and Result, used for Python's None and for the error paths of the risk pipeline. */
module Wrappers {

  /** Python's `None` (None) or a present value (Some). */
  datatype Option<+T> = None | Some(value: T)

  /** The errors the risk pipeline can end in. */
  datatype Error =
    /** The metabolomic guard rejected its inputs: a value is missing or not strictly positive. */
    | InvalidInput
    /** Python's `max` was handed an empty sequence and raised `ValueError`. */
    | EmptyMax

  /** A computed value (Success) or the error that ended the computation (Failure). */
  datatype Result<+R> = Success(value: R) | Failure(error: Error)
}
