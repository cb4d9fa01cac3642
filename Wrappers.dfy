// Option and Result types shared by every module of the model, and the
// exceptions the source throws, modelled as values.
module Wrappers {
  datatype Option<T> = None | Some(value: T)

  /** The .NET exceptions the modelled code throws. */
  datatype Fault =
    | ArgumentNull(parameter: string)
    | ArgumentOutOfRange(parameter: string)
    | Argument(message: string)
    | InvalidOperation(message: string)
    | NullReference
    | IndexOutOfRange
    | InvalidCast

  datatype Result<T> = Ok(value: T) | Err(fault: Fault)

  /** Outcome of an operation that returns nothing but may throw. */
  datatype Outcome = Pass | Fail(fault: Fault)
}
