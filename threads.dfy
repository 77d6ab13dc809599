/**
 * Types shared by the Nachos thread primitives: thread handles, an optional
 * value, and Java's 64-bit `long` with its wrap-around addition.
 */
module Threads {

  /** A thread handle. KThread is opaque here: only its identity matters. */
  type Tid = nat

  datatype Option<T> = None | Some(value: T)

  const TWO_63: int := 0x8000_0000_0000_0000
  const TWO_64: int := 0x1_0000_0000_0000_0000

  /** Java's `long`: the 64-bit two's-complement integers. */
  newtype Long = x: int | -0x8000_0000_0000_0000 <= x < 0x8000_0000_0000_0000

  /** Java's `a + b` on `long` operands, which wraps around silently on overflow. */
  function AddLong(a: Long, b: Long): (r: Long)
    ensures -TWO_63 <= a as int + b as int < TWO_63 ==> r as int == a as int + b as int
    ensures (r as int - (a as int + b as int)) % TWO_64 == 0
    ensures a >= 0 && b >= 0 && a as int + b as int >= TWO_63 ==> r < 0
  {
    var s := a as int + b as int;
    if s >= TWO_63 then (s - TWO_64) as Long
    else if s < -TWO_63 then (s + TWO_64) as Long
    else s as Long
  }
}
