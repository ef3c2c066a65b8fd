/** The machine's 64-bit numbers. */
module Arithmetic {
  /** The largest signed number, half the range and the whole range. */
  const MAX: int := 0x7fff_ffff_ffff_ffff
  const HALF: int := 0x8000_0000_0000_0000
  const TWO64: nat := 0x1_0000_0000_0000_0000

  function Min(a: int, b: int): int {
    if a <= b then a else b
  }

  function Max(a: int, b: int): int {
    if a >= b then a else b
  }

  /** A limit that is not positive is none: the largest number stands for it. */
  function Top(max: int): int {
    if max <= 0 then MAX else max
  }
}
