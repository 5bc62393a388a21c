/** Java's 32-bit `int`/`Integer`: values and the wrap-around of `+` and `-`. */
module JavaInt {

  const TWO_32: int := 0x1_0000_0000
  const MIN_INT: int := -0x8000_0000
  const MAX_INT: int := 0x7fff_ffff

  type Int32 = x: int | MIN_INT <= x <= MAX_INT

  /** The value Java's `int` arithmetic leaves when the exact result is `x`. */
  function Wrap32(x: int): (r: Int32)
    ensures (r - x) % TWO_32 == 0
    ensures MIN_INT <= x <= MAX_INT ==> r == x
  {
    var m := (x - MIN_INT) % TWO_32;
    m + MIN_INT
  }
}
