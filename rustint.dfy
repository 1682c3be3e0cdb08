/** Rust's fixed-width integer semantics where the source relies on them:
    `as i16` / `as i32` casts that wrap, and `/` on signed integers, which
    truncates toward zero (Dafny's `/` is Euclidean). */
module RustInt {

  const TWO_15: int := 0x8000
  const TWO_16: int := 0x1_0000
  const TWO_31: int := 0x8000_0000
  const TWO_32: int := 0x1_0000_0000

  predicate InI16(x: int) { -TWO_15 <= x < TWO_15 }
  predicate InI32(x: int) { -TWO_31 <= x < TWO_31 }

  /** `x as i16`: keep the low 16 bits, read them as two's complement. */
  function WrapI16(x: int): (r: int)
    ensures InI16(r)
    ensures (x - r) % TWO_16 == 0
    ensures InI16(x) ==> r == x
  {
    var low := x % TWO_16;
    if low < TWO_15 then low else low - TWO_16
  }

  /** `x as i32`: keep the low 32 bits, read them as two's complement. */
  function WrapI32(x: int): (r: int)
    ensures InI32(r)
    ensures (x - r) % TWO_32 == 0
    ensures InI32(x) ==> r == x
  {
    var low := x % TWO_32;
    if low < TWO_31 then low else low - TWO_32
  }

  function Abs(x: int): (r: nat)
    ensures r == x || r == -x
  {
    if x < 0 then -x else x
  }

  /** Rust's signed `/` by a positive divisor: the quotient rounded toward
      zero, so the remainder takes the sign of the dividend. */
  function TruncDiv(a: int, b: int): (q: int)
    requires b > 0
    ensures Abs(a - q * b) < b
    ensures a - q * b == 0 || ((a - q * b < 0) == (a < 0))
    ensures Abs(q) == Abs(a) / b
  {
    var m := Abs(a) / b;
    assert Abs(a) == m * b + Abs(a) % b;
    if a < 0 then
      assert a - (-m) * b == -(Abs(a) % b);
      -m
    else
      m
  }
}
