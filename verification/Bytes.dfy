/** Values shared by every part of the model. */
module Bytes {
  newtype byte = x: int | 0 <= x < 256

  datatype Option<+T> = None | Some(value: T)

  const CR: byte := 13
  const LF: byte := 10

  function Min(a: int, b: int): int {
    if a < b then a else b
  }

  /** The number of values of the source's 64-bit `usize` and `u64`. */
  const WORD: int := 0x1_0000_0000_0000_0000
}
