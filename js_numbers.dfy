/** JavaScript's integer arithmetic where it differs from Dafny's: the
    truncating remainder `%` and the 32-bit signed wrap-around that the
    bitwise operators (`<<`, `&`) apply to their operands and results. */
module JsNumbers {

  const TwoTo31: int := 0x8000_0000
  const TwoTo32: int := 0x1_0000_0000

  /** JavaScript's `a % b` for a positive `b`: the remainder takes the sign
      of `a`, unlike Dafny's, which is never negative. */
  function JsRem(a: int, b: nat): (r: int)
    requires b > 0
    ensures a >= 0 ==> r == a % b
    ensures 0 - b < r < b
    ensures a >= 0 ==> r >= 0
    ensures a < 0 ==> r <= 0
  {
    if a >= 0 then a % b else -((-a) % b)
  }

  /** `Math.abs` on integers. */
  function Abs(a: int): (r: nat)
    ensures r == a || r == -a
  {
    if a >= 0 then a else -a
  }

  /** ECMAScript ToInt32 on an integral number: the value in the signed
      32-bit range that is congruent to `x` modulo 2^32. */
  function ToInt32(x: int): (r: int)
    ensures -TwoTo31 <= r < TwoTo31
    ensures (x - r) % TwoTo32 == 0
    ensures -TwoTo31 <= x < TwoTo31 ==> r == x
  {
    var m := x % TwoTo32;
    if m >= TwoTo31 then m - TwoTo32 else m
  }

  /** `x << 5` for a 32-bit `x`: the shifted bits past bit 31 are lost. */
  function ShiftLeft5(x: int): (r: int)
    ensures -TwoTo31 <= r < TwoTo31
    ensures -0x400_0000 <= x < 0x400_0000 ==> r == x * 32
  {
    ToInt32(x * 32)
  }

  /** Wrapping is idempotent, so `a & a` on a wrapped value changes nothing. */
  lemma ToInt32Idempotent(x: int)
    ensures ToInt32(ToInt32(x)) == ToInt32(x)
  {
  }
}
