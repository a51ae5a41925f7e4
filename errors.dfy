/**
 * The exceptions the engine throws, as values. Each carries the C++ exception
 * class and its message; `AllocationFailure` stands for the std::length_error
 * or std::bad_alloc a vector resize to a wrapped-around negative size raises.
 */
module Errors {

  datatype Error =
    | InvalidArgument(message: string)
    | OutOfRange(message: string)
    | RuntimeError(message: string)
    | AllocationFailure

  datatype Result<T> = Ok(value: T) | Err(error: Error)
}
