/**
 * Go's fixed-width integer arithmetic and time.Duration units, on
 * Dafny's unbounded integers. A Go `int` is taken to be 64 bits wide.
 */
module GoInt {
  const MinInt64: int := -0x8000_0000_0000_0000
  const MaxInt64: int := 0x7FFF_FFFF_FFFF_FFFF
  const Modulus64: int := 0x1_0000_0000_0000_0000

  type Int64 = x: int | MinInt64 <= x <= MaxInt64

  /** time.Duration: a signed 64-bit count of nanoseconds. */
  type Duration = Int64

  const Nanosecond: Duration := 1
  const Millisecond: Duration := 1_000_000
  const Second: Duration := 1_000_000_000
  const Minute: Duration := 60_000_000_000

  function Min(a: int, b: int): int { if a <= b then a else b }
  function Max(a: int, b: int): int { if a <= b then b else a }

  /** Two's-complement wrap-around: the int64 value congruent to `x`. */
  function Wrap64(x: int): (r: Int64)
    ensures (x - r) % Modulus64 == 0
    ensures MinInt64 <= x <= MaxInt64 ==> r == x
  {
    var k := (x - MinInt64) / Modulus64;
    assert x - MinInt64 == k * Modulus64 + (x - MinInt64) % Modulus64;
    (x - MinInt64) % Modulus64 + MinInt64
  }

  /** Go's `a * b` on int64 operands, which silently wraps. */
  function Mul64(a: Int64, b: Int64): (r: Int64)
    ensures MinInt64 <= a * b <= MaxInt64 ==> r == a * b
    ensures (a * b - r) % Modulus64 == 0
  {
    Wrap64(a * b)
  }

  /** Multiplying two numbers congruent modulo 2^64 by the same factor keeps them congruent. */
  lemma CongruentScaled(a: int, b: int, c: int)
    requires (a - b) % Modulus64 == 0
    ensures (a * c - b * c) % Modulus64 == 0
  {
    var k := (a - b) / Modulus64;
    assert a - b == k * Modulus64;
    assert a * c - b * c == (k * c) * Modulus64;
  }

  /** Congruence modulo 2^64 is transitive (and symmetric). */
  lemma CongruentChain(x: int, y: int, z: int)
    requires (x - y) % Modulus64 == 0 && (y - z) % Modulus64 == 0
    ensures (z - x) % Modulus64 == 0
  {
    var j := (x - y) / Modulus64;
    var k := (y - z) / Modulus64;
    assert x - y == j * Modulus64 && y - z == k * Modulus64;
    assert z - x == (-j - k) * Modulus64;
  }

  /** Go's integer `a / b`, which truncates toward zero (Dafny's `/` is Euclidean). */
  function Quo(a: int, b: int): (q: int)
    requires b > 0
    ensures a >= 0 ==> 0 <= q * b <= a < q * b + b
    ensures a < 0 ==> q * b - b < a <= q * b <= 0
  {
    var n := if a >= 0 then a else -a;
    DivBounds(n, b);
    if a >= 0 then n / b else -(n / b)
  }

  lemma DivBounds(n: nat, b: int)
    requires b > 0
    ensures 0 <= (n / b) * b <= n < (n / b) * b + b
  {
    assert n == (n / b) * b + n % b;
  }
}
