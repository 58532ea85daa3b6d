/** Unsigned 64-bit arithmetic as the source uses it: `uint64_t` sums and differences wrap. */
module Words {
  const TWO64: int := 0x1_0000_0000_0000_0000
  const TWO32: int := 0x1_0000_0000
  const TWO31: int := 0x8000_0000

  type U64 = x: int | 0 <= x < TWO64

  type U32 = x: int | 0 <= x < TWO32

  /** `~0ull`, the value the source uses for "none". */
  const MAX64: U64 := TWO64 - 1

  function Plus(a: U64, b: U64): U64 {
    if a + b < TWO64 then a + b else a + b - TWO64
  }

  function Minus(a: U64, b: U64): U64 {
    if b <= a then a - b else a - b + TWO64
  }

  /** The conversion of a non-negative 64-bit value to `int`. */
  function ToInt(d: nat): int {
    var low := d % TWO32;
    if low < TWO31 then low else low - TWO32
  }
}
