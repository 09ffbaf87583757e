/** Fixed-width unsigned integers of the AVR firmware: the 8-bit port
    registers and the 16-bit phase increment, with the C wrap-around
    made explicit. */
module Word {

  const BYTE_MODULUS: int := 0x100
  const WORD_MODULUS: int := 0x1_0000

  newtype u8 = x: int | 0 <= x < 0x100
  newtype u16 = x: int | 0 <= x < 0x1_0000

  /** The value a `u16` variable holds after `x += d` (or `++x`, `--x`,
      `x -= d` with d negated): the exact sum reduced modulo 2^16. */
  function Add16(a: u16, d: int): (r: u16)
    ensures 0 <= a as int + d < WORD_MODULUS ==> r as int == a as int + d
    ensures WORD_MODULUS <= a as int + d < 2 * WORD_MODULUS ==> r as int == a as int + d - WORD_MODULUS
    ensures -WORD_MODULUS <= a as int + d < 0 ==> r as int == a as int + d + WORD_MODULUS
  {
    ((a as int + d) % WORD_MODULUS) as u16
  }

  /** Two successive wrapped updates are one wrapped update by the sum. */
  lemma Add16Compose(a: u16, x: int, y: int)
    ensures Add16(Add16(a, x), y) == Add16(a, x + y)
  {
  }

  /** `value & 0x00FF`: the byte written to port A. On an unsigned value
      masking the low eight bits is the remainder by 256. */
  function Low(value: u16): (r: u8)
    ensures r as int < BYTE_MODULUS
    ensures (value as int - r as int) % BYTE_MODULUS == 0
  {
    (value as int % BYTE_MODULUS) as u8
  }

  /** `(value >> 8) & 0x00FF`: the byte written to port C. Shifting an
      unsigned 16-bit value right by eight is the quotient by 256, which
      already fits the mask. */
  function High(value: u16): (r: u8)
    ensures r as int * BYTE_MODULUS <= value as int < (r as int + 1) * BYTE_MODULUS
  {
    (value as int / BYTE_MODULUS) as u8
  }

  /** The 16-bit value a receiver assembles from a high and a low byte. */
  function Join(high: u8, low: u8): (r: u16)
    ensures r as int % BYTE_MODULUS == low as int
    ensures r as int / BYTE_MODULUS == high as int
  {
    (high as int * BYTE_MODULUS + low as int) as u16
  }

  /** Splitting a value into its two bytes loses nothing. */
  lemma SplitJoin(value: u16)
    ensures Join(High(value), Low(value)) == value
    ensures High(value) as int * BYTE_MODULUS + Low(value) as int == value as int
  {
  }

  /** Every pair of bytes is the split of exactly one value. */
  lemma JoinSplit(high: u8, low: u8)
    ensures High(Join(high, low)) == high && Low(Join(high, low)) == low
  {
  }
}
