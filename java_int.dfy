/** The parts of Java's 32-bit `int` arithmetic that the session code depends on. */
module JavaInt {
  const MinInt32: int := -0x8000_0000
  const MaxInt32: int := 0x7fff_ffff

  predicate IsInt32(x: int) {
    MinInt32 <= x <= MaxInt32
  }

  /** Two's-complement wrap-around of a mathematical sum back into `int` range. */
  function Wrap32(x: int): (r: int)
    ensures IsInt32(r)
    ensures IsInt32(x) ==> r == x
    ensures (x - r) % 0x1_0000_0000 == 0
  {
    (x - MinInt32) % 0x1_0000_0000 + MinInt32
  }

  /** Java's `a % 256`: truncated toward zero, so it takes the sign of the dividend. */
  function Rem256(a: int): (r: int)
    ensures a >= 0 ==> 0 <= r < 256
    ensures a < 0 ==> -256 < r <= 0
    ensures (a - r) % 256 == 0
  {
    if a >= 0 then a % 256 else -((-a) % 256)
  }
}
