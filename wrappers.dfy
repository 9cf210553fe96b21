/** Value wrappers shared by the model: an optional value, and the two shapes an
    operation that may throw `std::runtime_error` takes once the exception is a value. */
module Wrappers {

  datatype Option<+T> = None | Some(value: T)

  /** The one exception type the renderer throws: a runtime error carrying its message. */
  datatype Error = RuntimeError(message: string)

  /** The outcome of an operation that returns a value or throws. */
  datatype Result<+T> = Success(value: T) | Failure(error: Error)

  /** The outcome of a `void` operation that may throw. */
  datatype Outcome = Pass | Fail(error: Error)
}
