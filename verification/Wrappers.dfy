/** Option and Result, shared by every module of the project. */
module Wrappers {

  datatype Option<+T> = None | Some(value: T)

  /** `Err` stands for an exception the Python code raises. */
  datatype Result<+T, +E> = Ok(value: T) | Err(error: E)
}
