/** The machine words of the source: bytes, and 64-bit counters that wrap or saturate. */
module Words {

  type Byte = b: int | 0 <= b < 256

  const U64: nat := 0x1_0000_0000_0000_0000

  const LAST_WORD: nat := U64 - 1

  /** `saturating_add(1)`. */
  function SaturatingNext(n: nat): nat {
    if n < LAST_WORD then n + 1 else LAST_WORD
  }
}
