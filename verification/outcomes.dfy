/** Values that may be absent, the C++ exceptions the tensor core throws, and
    a result type carrying either a value or the exception thrown instead. */
module Outcomes {

  /** An optional value; `None` plays the part of a null pointer. */
  datatype Option<+T> = None | Some(value: T)

  /** The standard exception types thrown by the core:
      `std::invalid_argument`, `std::runtime_error` and `std::out_of_range`. */
  datatype Exception = InvalidArgument | RuntimeError | OutOfRange

  /** Either the operation returned normally with `value`, or it threw `error`. */
  datatype Result<+T> = Ok(value: T) | Throw(error: Exception)
}
