/** Go's 64-bit integers. */
module GoInts {
  const TWO63 := 0x8000_0000_0000_0000
  const TWO64 := 0x1_0000_0000_0000_0000

  type int64 = x: int | -TWO63 <= x < TWO63

  /** The signed 64-bit value that has the low 64 bits of `x`. */
  function ToInt64(x: int): int64 {
    (x + TWO63) % TWO64 - TWO63
  }
}
