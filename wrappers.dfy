/** Failure-carrying results: the Python code signals failure by raising
    (IndexError, KeyError) or by returning None; the model returns these. */
module Wrappers {

  datatype Option<+T> = None | Some(value: T)

  datatype Result<+T, +E> = Ok(value: T) | Err(error: E)
}
