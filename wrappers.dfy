/**
 * Outcomes of operations that can throw. The library signals failure with
 * three C++ exception types; each becomes a constructor of `Error`.
 */
module Wrappers {
  /** std::invalid_argument, std::runtime_error and std::out_of_range. */
  datatype Error = InvalidArgument | RuntimeError | OutOfRange

  /** A value-returning operation: the value, or the exception it throws. */
  datatype Result<T> = Ok(value: T) | Err(error: Error)

  /** A state-changing operation without a value: it returns, or it throws. */
  datatype Outcome = Pass | Fail(error: Error)

  /** A value that may be absent. */
  datatype Option<T> = None | Some(value: T)
}
