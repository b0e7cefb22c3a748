/** Failure-carrying values used in place of the player's panics and `expect` calls. */
module Wrappers {

  datatype Option<+T> = None | Some(value: T)

  datatype Result<+R, +E> = Success(value: R) | Failure(error: E)

  datatype Outcome<+E> = Pass | Fail(error: E)

  function Min(a: int, b: int): int
  {
    if a <= b then a else b
  }
}
