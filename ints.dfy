/** Machine integers of the source, as subsets of the unbounded integers, and
    the clamping it applies to coordinates. */
module Ints {

  const U32_LIMIT: int := 0x1_0000_0000

  type U8 = x: int | 0 <= x < 0x100
  type U32 = x: int | 0 <= x < U32_LIMIT

  function Min(a: int, b: int): int { if a <= b then a else b }

  /** `v.clamp(lo, hi)` on unsigned integers: the nearest value of [lo, hi]. */
  function Clamp(v: int, lo: int, hi: int): (r: int)
    requires lo <= hi
    ensures lo <= r <= hi
    ensures lo <= v <= hi ==> r == v
    ensures v < lo ==> r == lo
    ensures hi < v ==> r == hi
  {
    if v < lo then lo else if hi < v then hi else v
  }
}
