/** Python integers reduced to the bytes the bus carries. */
module Bytes {

  /** Bits 0-7 of a Python integer in two's complement. `x & 0xF0` and
      `(x << 4) & 0xF0` on an unbounded integer see exactly these bits, and
      Dafny's `%` (never negative) gives them for negative `x` too. */
  function LowByte(x: int): bv8 {
    (x % 256) as bv8
  }

  lemma ByteValue(x: int)
    requires 0 <= x < 256
    ensures (x as bv8) as int == x
  {
    // The case split keeps the solver's int-to-bitvector reasoning small.
    if x < 128 {
      if x < 64 {
      } else {
      }
    } else {
      if x < 192 {
      } else {
      }
    }
  }
}
