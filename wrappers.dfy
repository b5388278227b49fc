/** Option and Result, the two failure-carrying datatypes the model uses for
    Java's nullable returns and thrown errors. */
module Wrappers {

  datatype Option<+T> = None | Some(value: T)

  datatype Result<+R, +E> = Ok(value: R) | Err(error: E)
}
