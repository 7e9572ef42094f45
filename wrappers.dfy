/** Option and Result: the model's stand-ins for Go's nil pointers and
    for the (value, error) pairs its functions return. */
module Wrappers {

  datatype Option<+T> = None | Some(value: T)

  datatype Result<+T, +E> = Ok(value: T) | Err(error: E)
}
