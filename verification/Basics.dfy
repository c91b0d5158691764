/** Small definitions that several modules use. */
module Basics {

  datatype Option<+T> = None | Some(value: T)

  function Min(a: int, b: int): int {
    if b < a then b else a
  }

  function Max(a: int, b: int): int {
    if a < b then b else a
  }
}
