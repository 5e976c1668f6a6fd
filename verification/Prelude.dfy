/** Values shared by every module: optional and fallible results, and row identifiers. */
module Prelude {
  datatype Option<+T> = None | Some(value: T)

  datatype Result<+T, +E> = Success(value: T) | Failure(error: E)

  /** A row identifier in its canonical text form. Only the fixed length matters below. */
  type Uuid = s: string | |s| == 36 witness "00000000-0000-4000-8000-000000000000"

  function Min(a: int, b: int): int {
    if a <= b then a else b
  }

  function Max(a: int, b: int): int {
    if a >= b then a else b
  }
}
