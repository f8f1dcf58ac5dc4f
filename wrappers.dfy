/** Failure-carrying value types shared by the whole model: a Python call that
    may raise becomes a function or method returning a Result. */
module Wrappers {

  datatype Option<+T> = None | Some(value: T)

  datatype Result<+T, +E> = Ok(value: T) | Err(error: E)

  /** Python's `min` on two naturals, used for the length of a `zip`. */
  function Min(a: nat, b: nat): nat
  {
    if a <= b then a else b
  }
}
