/** Unsigned 64-bit integers. */
module Words {

  const U64 := 0x1_0000_0000_0000_0000

  type U64Int = x: int | 0 <= x < U64
}
