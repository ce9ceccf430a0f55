/** Fixed-width unsigned integers as the firmware uses them: `uint8_t`, `uint16_t`
    and `uint32_t` values, with the wrap-around of C unsigned arithmetic written out. */
module Uint {

  const TWO_8: int := 0x100
  const TWO_16: int := 0x1_0000
  const TWO_32: int := 0x1_0000_0000

  type u8 = x: int | 0 <= x < TWO_8
  type u16 = x: int | 0 <= x < TWO_16
  type u32 = x: int | 0 <= x < TWO_32

  /** Conversion of any integer to `uint16_t` (keeps the low 16 bits). */
  function Trunc16(x: int): (r: u16)
    ensures 0 <= x < TWO_16 ==> r == x
    ensures (x - r) % TWO_16 == 0
  {
    x % TWO_16
  }

  /** `a - b` on `uint16_t`: the wrapping difference. */
  function Sub16(a: u16, b: u16): (r: u16)
    ensures b <= a ==> r == a - b
    ensures a < b ==> r == a - b + TWO_16
  {
    (a - b) % TWO_16
  }

  /** `a - b` on `uint32_t`: the wrapping difference. */
  function Sub32(a: u32, b: u32): (r: u32)
    ensures b <= a ==> r == a - b
    ensures a < b ==> r == a - b + TWO_32
  {
    (a - b) % TWO_32
  }

  /** `a + b` on `uint32_t`: the wrapping sum. */
  function Add32(a: u32, b: u32): (r: u32)
    ensures a + b < TWO_32 ==> r == a + b
    ensures TWO_32 <= a + b ==> r == a + b - TWO_32
  {
    (a + b) % TWO_32
  }

  /** Wrapping addition undoes wrapping subtraction. */
  lemma AddAfterSub(a: u32, b: u32)
    ensures Add32(b, Sub32(a, b)) == a
  {
  }

  /** Subtracting a wrapped difference: `t - (u - e) == e + (t - u)` modulo 2^32. */
  lemma SubOfSub(t: u32, u: u32, e: u32)
    ensures Sub32(t, Sub32(u, e)) == Add32(e, Sub32(t, u))
  {
  }

  /** `t - (t - e) == e` modulo 2^32. */
  lemma SubSubCancel(t: u32, e: u32)
    ensures Sub32(t, Sub32(t, e)) == e
  {
  }
}
