/**
 * The bit-manipulation helpers of bfbitmanip.h, taken with their documented
 * meaning: set_bits(x, m, b) = (x & ~m) | (b & m) and get_bits(x, m) = x & m.
 */
module Bits {
  /** Bits of `x` outside `m` are kept, bits inside `m` are taken from `b`. */
  function SetBits(x: bv64, m: bv64, b: bv64): (r: bv64)
    ensures r & m == b & m
    ensures r & !m == x & !m
  {
    (x & !m) | (b & m)
  }

  /** The bits of `x` selected by the mask `m`. */
  function GetBits(x: bv64, m: bv64): (r: bv64)
    ensures r & !m == 0
    ensures r | (x & !m) == x
  {
    x & m
  }

  /** 64-bit addition, wrapping around. */
  function Add64(x: bv64, y: bv64): bv64
  {
    x + y
  }

  /** A 32-bit value zero-extended to 64 bits. */
  function Widen(x: bv32): bv64
  {
    x as bv64
  }

  /** A zero-extended value has its high 32 bits clear. */
  lemma WidenHigh(x: bv32)
    ensures Widen(x) & 0xFFFF_FFFF_0000_0000 == 0
  {
  }

  /** Truncating to 32 bits and zero-extending again keeps exactly the low 32 bits. */
  lemma WidenLow32(x: bv64)
    ensures Widen(Low32(x)) == x & 0xFFFF_FFFF
  {
  }

  /** The low 32 bits of a 64-bit value, as a 32-bit value (narrow_cast). */
  function Low32(x: bv64): (r: bv32)
    ensures r as bv64 == x & 0xFFFF_FFFF
  {
    (x & 0xFFFF_FFFF) as bv32
  }

  // Word facts the field accessors rely on, one at a time (the solver handles
  // them separately far more cheaply than together).

  lemma OrSame(x: bv64, b: bv64)
    ensures (x | b) & b == b
  {
  }

  lemma AndNotSame(x: bv64, b: bv64)
    ensures (x & !b) & b == 0
  {
  }

  /** Setting bits `b` leaves the bits `c` outside them alone. */
  lemma OrOther(x: bv64, b: bv64, c: bv64)
    requires b & c == 0
    ensures (x | b) & c == x & c
  {
  }

  /** Clearing bits `b` leaves the bits `c` outside them alone. */
  lemma AndNotOther(x: bv64, b: bv64, c: bv64)
    requires b & c == 0
    ensures (x & !b) & c == x & c
  {
  }

  /** Writing the field `m` leaves the bits `c` outside it alone. */
  lemma SetBitsOther(x: bv64, m: bv64, v: bv64, c: bv64)
    requires m & c == 0
    ensures SetBits(x, m, v) & c == x & c
  {
  }
}
