/** Small shared vocabulary. */
module Prelude {

  datatype Option<+T> = None | Some(value: T)

  /** Largest of two integers. */
  function Max(a: int, b: int): int {
    if a >= b then a else b
  }
}
