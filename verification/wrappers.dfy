/** Failure-carrying results for the operations that return nil or panic in the library. */
module Wrappers {

  /** A value or its absence; `None` stands for a nil pointer result. */
  datatype Option<+T> = None | Some(value: T)

  /** A value, or the "unsupported type." panic raised when a generic value has the wrong shape. */
  datatype Result<+T> = Ok(value: T) | Unsupported
}
