/** Fixed-width integer types of the Swift source, the conversions from
    floating point it relies on, and the facts about `%` that the ring
    buffer's index arithmetic needs. Dafny integers are unbounded, so every
    width the source depends on is spelled out here. */
module Ints {

  const UINT32_LIMIT: int := 0x1_0000_0000
  const INT64_LIMIT: int := 0x8000_0000_0000_0000
  const INT64_MODULUS: int := 0x1_0000_0000_0000_0000

  /** Swift `UInt32`. */
  type UInt32 = x: int | 0 <= x < 0x1_0000_0000

  /** Swift `Int64` (and `Int` on a 64-bit platform). */
  type Int64 = x: int | -0x8000_0000_0000_0000 <= x < 0x8000_0000_0000_0000

  function Min(a: int, b: int): int {
    if a <= b then a else b
  }

  function Max(a: int, b: int): int {
    if a >= b then a else b
  }

  function Abs(x: int): nat {
    if x < 0 then -x else x
  }

  function AbsReal(x: real): real {
    if x < 0.0 then -x else x
  }

  function MinReal(a: real, b: real): real {
    if a <= b then a else b
  }

  function MaxReal(a: real, b: real): real {
    if a >= b then a else b
  }

  /** Swift's `&+` on `Int64`: two's-complement addition that wraps. */
  function WrappingAdd(a: Int64, b: Int64): (r: Int64)
    ensures -INT64_LIMIT <= a + b < INT64_LIMIT ==> r == a + b
    ensures r == a + b || r == a + b - INT64_MODULUS || r == a + b + INT64_MODULUS
  {
    var s := a + b;
    if s >= INT64_LIMIT then s - INT64_MODULUS
    else if s < -INT64_LIMIT then s + INT64_MODULUS
    else s
  }

  /** Swift's `Int(x)` / `Int64(x)` / `UInt32(x)` on a floating-point value:
      the fraction is discarded, rounding toward zero (not toward minus
      infinity as `Floor` does). */
  function Trunc(x: real): (r: int)
    ensures 0.0 <= x ==> 0 <= r && r as real <= x < r as real + 1.0
    ensures x < 0.0 ==> r <= 0 && r as real - 1.0 < x <= r as real
  {
    if x >= 0.0 then x.Floor else -((-x).Floor)
  }

  /** Swift's `x.rounded()` on a non-negative value: to nearest, halves away
      from zero. */
  function RoundHalfUp(x: real): (r: int)
    requires x >= 0.0
    ensures 0 <= r
    ensures x - 0.5 < r as real <= x + 0.5
  {
    (x + 0.5).Floor
  }

  lemma MulAtLeast(d: int, c: int)
    requires c > 0 && d >= 1
    ensures d * c >= c
  {
    assert d * c == (d - 1) * c + c;
  }

  /** The only multiple of `c` strictly between `-c` and `c` is zero. */
  lemma MulZero(d: int, c: int)
    requires c > 0 && -c < d * c < c
    ensures d == 0
  {
    if d >= 1 {
      MulAtLeast(d, c);
    } else if d <= -1 {
      MulAtLeast(-d, c);
    }
  }

  /** Euclidean remainders are unique. */
  lemma ModUnique(z: int, q: int, r: int, c: int)
    requires c > 0 && 0 <= r < c && z == q * c + r
    ensures z % c == r
  {
    var q0, r0 := z / c, z % c;
    assert z == q0 * c + r0;
    assert (q - q0) * c == r0 - r;
    MulZero(q - q0, c);
  }

  lemma ModAddMultiple(z: int, m: int, c: int)
    requires c > 0
    ensures (z + m * c) % c == z % c
  {
    var q, r := z / c, z % c;
    assert z + m * c == (q + m) * c + r;
    ModUnique(z + m * c, q + m, r, c);
  }

  /** Reducing a summand modulo `c` first does not change the sum's remainder. */
  lemma ModOfSum(x: int, y: int, c: int)
    requires c > 0
    ensures (x % c + y) % c == (x + y) % c
  {
    assert x % c + y == (x + y) + (-(x / c)) * c;
    ModAddMultiple(x + y, -(x / c), c);
  }

  /** Fewer than `c` consecutive offsets from one start land in distinct slots. */
  lemma ModDistinct(s: int, p: int, q: int, c: int)
    requires c > 0 && 0 <= p < q < c
    ensures (s + p) % c != (s + q) % c
  {
    var a, b := (s + p) / c, (s + q) / c;
    if (s + p) % c == (s + q) % c {
      assert (b - a) * c == q - p;
      MulZero(b - a, c);
    }
  }

  lemma ModSmall(x: int, c: int)
    requires 0 <= x < c
    ensures x % c == x
  {
    ModUnique(x, 0, x, c);
  }

  /** Multiplying by a non-negative real keeps the order. */
  lemma MulLeReal(a: real, x: real, y: real)
    requires 0.0 <= a && x <= y
    ensures a * x <= a * y
  {
    assert a * y - a * x == a * (y - x);
  }

  /** Multiplying by a positive factor keeps a strict order. */
  lemma MulLtReal(a: real, x: real, y: real)
    requires 0.0 < a && x < y
    ensures a * x < a * y
  {
    assert a * y - a * x == a * (y - x);
  }

  /** Truncation of non-negative reals is monotone. */
  lemma TruncMonotone(x: real, y: real)
    requires 0.0 <= x <= y
    ensures Trunc(x) <= Trunc(y)
  {
    assert Trunc(x) as real <= y < Trunc(y) as real + 1.0;
  }

  lemma MulNonnegReal(a: real, b: real)
    requires 0.0 <= a && 0.0 <= b
    ensures 0.0 <= a * b
  {
    MulLeReal(a, 0.0, b);
    assert a * 0.0 == 0.0;
  }
}
