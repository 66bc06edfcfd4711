/** Option and Result, the two failure-carrying datatypes the model uses. */
module Wrappers {

  datatype Option<+T> = None | Some(value: T)

  /** `Err` stands for a thrown JavaScript exception. */
  datatype Result<+T, +E> = Ok(value: T) | Err(error: E)
}
