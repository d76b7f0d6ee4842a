/** Small failure-carrying datatypes shared by the whole model. */
module Wrappers {

  datatype Option<+T> = None | Some(value: T)

  datatype Result<+T, +E> = Ok(value: T) | Err(error: E)

  /** The three ways a Go function can end: a value, an error value, or a
      run-time panic (nil dereference, index out of range). */
  datatype Outcome<+T, +E> = Done(value: T) | Failed(error: E) | Panicked(reason: string)
}
