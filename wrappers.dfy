/** Optional values and results with an error message, the two shapes the
    modelled Python code uses for `None` and for a caught exception. */
module Wrappers {

  datatype Option<+T> = None | Some(value: T)

  /** `Failure(message)` stands for an exception whose `str(e)` is `message`. */
  datatype Result<+T> = Success(value: T) | Failure(error: string)

  function Min(a: int, b: int): int
  {
    if a <= b then a else b
  }
}
