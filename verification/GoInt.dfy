/** Go's fixed-width integers: 64-bit two's-complement wrap-around, truncating division, uint8. */
module GoInt {
  const MAX_INT64 := 0x7fff_ffff_ffff_ffff
  const TWO_TO_63 := 0x8000_0000_0000_0000
  const TWO_TO_64 := 0x1_0000_0000_0000_0000

  type int64 = x: int | -TWO_TO_63 <= x <= MAX_INT64
  type uint8 = x: int | 0 <= x < 256

  // The int64 value a Go expression has when its mathematical value is x.
  function Wrap(x: int): (r: int64)
    ensures -TWO_TO_63 <= x <= MAX_INT64 ==> r == x
    ensures (x - r) % TWO_TO_64 == 0
  {
    (x + TWO_TO_63) % TWO_TO_64 - TWO_TO_63
  }

  // Go's `/`: truncates toward zero.
  function Quot(a: int, b: int): (q: int)
    requires b > 0
    ensures 0 <= a ==> q == a / b
    ensures a <= 0 ==> q == -((-a) / b)
  {
    if a >= 0 then a / b else -((-a) / b)
  }

  // Go's `%`: has the sign of the dividend.
  function Rem(a: int, b: int): (r: int)
    requires b > 0
    ensures -b < r < b
    ensures a == b * Quot(a, b) + r
  {
    a - b * Quot(a, b)
  }
}
