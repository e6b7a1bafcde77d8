/**
 * The host numbers of the interpreter: Go's `int64`, with two's-complement
 * wrap-around and division truncating toward zero, and Go's `float64`, kept
 * as its IEEE 754 bit pattern with the arithmetic injected from outside.
 */
module Numerics {

  const TWO_63: int := 0x8000_0000_0000_0000
  const TWO_64: int := 0x1_0000_0000_0000_0000
  const MIN_INT64: int := -TWO_63
  const MAX_INT64: int := TWO_63 - 1

  /** Go's `int64`. */
  type Int64 = x: int | -0x8000_0000_0000_0000 <= x < 0x8000_0000_0000_0000

  function Abs(x: int): nat {
    if x < 0 then -x else x
  }

  /** Two's-complement reduction of a mathematical integer to 64 bits. */
  function Wrap(x: int): (r: Int64)
    ensures (x - r) % TWO_64 == 0
    ensures MIN_INT64 <= x <= MAX_INT64 ==> r == x
  {
    var m := (x + TWO_63) % TWO_64;
    assert x + TWO_63 == TWO_64 * ((x + TWO_63) / TWO_64) + m;
    m - TWO_63
  }

  /** Quotient truncated toward zero (the `/` of Go, C and Java) on unbounded integers. */
  function TDiv(a: int, b: int): (q: int)
    requires b != 0
    ensures Abs(q) == Abs(a) / Abs(b)
    ensures q > 0 ==> (a > 0) == (b > 0)
    ensures q < 0 ==> (a > 0) != (b > 0)
  {
    var m: int := NatDiv(Abs(a), Abs(b));
    if (a >= 0) == (b > 0) then m else -m
  }

  /** Remainder matching `TDiv`: Go's `%`. */
  function TMod(a: int, b: int): (r: int)
    requires b != 0
    ensures a == TDiv(a, b) * b + r
    ensures Abs(r) < Abs(b)
    ensures r != 0 ==> (r > 0) == (a > 0)
  {
    var m := NatDiv(Abs(a), Abs(b));
    var rm := Abs(a) - Abs(b) * m;
    NatDivMod(Abs(a), Abs(b));
    if a >= 0 then rm else -rm
  }

  /** Division of naturals, with the result known to be a natural. */
  function NatDiv(a: nat, b: nat): (q: nat)
    requires b > 0
    ensures q == a / b
  {
    NatDivMod(a, b);
    a / b
  }

  lemma NatDivMod(a: nat, b: nat)
    requires b > 0
    ensures 0 <= a / b
    ensures 0 <= a - b * (a / b) < b
  {
  }

  /** `int64 + int64` in Go. */
  function Add64(a: Int64, b: Int64): (r: Int64)
    ensures (a + b - r) % TWO_64 == 0
    ensures MIN_INT64 <= a + b <= MAX_INT64 ==> r == a + b
  {
    Wrap(a + b)
  }

  /** `int64 - int64` in Go. */
  function Sub64(a: Int64, b: Int64): (r: Int64)
    ensures (a - b - r) % TWO_64 == 0
    ensures MIN_INT64 <= a - b <= MAX_INT64 ==> r == a - b
  {
    Wrap(a - b)
  }

  /** `int64 * int64` in Go. */
  function Mul64(a: Int64, b: Int64): (r: Int64)
    ensures (a * b - r) % TWO_64 == 0
    ensures MIN_INT64 <= a * b <= MAX_INT64 ==> r == a * b
  {
    Wrap(a * b)
  }

  /**
   * `int64 / int64` in Go: truncated, and the one overflowing case
   * `MinInt64 / -1` wraps back to `MinInt64`.
   */
  function Div64(a: Int64, b: Int64): (q: Int64)
    requires b != 0
    ensures q == if a == MIN_INT64 && b == -1 then MIN_INT64 else TDiv(a, b)
  {
    var t := TDiv(a, b);
    assert Abs(t) <= Abs(a) by {
      DivAtMostDividend(Abs(a), Abs(b));
    }
    if a == MIN_INT64 && b == -1 then
      assert t == TWO_63;
      Wrap(t)
    else
      assert t != TWO_63 by {
        if t == TWO_63 {
          assert a == MIN_INT64;
          DivIsDividendOnlyByOne(Abs(a), Abs(b));
        }
      }
      Wrap(t)
  }

  /** `int64 % int64` in Go; never overflows (`MinInt64 % -1 == 0`). */
  function Mod64(a: Int64, b: Int64): (r: Int64)
    requires b != 0
    ensures r == TMod(a, b)
  {
    TMod(a, b)
  }

  lemma DivAtMostDividend(a: nat, b: nat)
    requires b > 0
    ensures a / b <= a
  {
    NatDivMod(a, b);
    MulAtLeast(b, a / b);
  }

  lemma DivIsDividendOnlyByOne(a: nat, b: nat)
    requires b > 0 && a > 0 && a / b == a
    ensures b == 1
  {
    NatDivMod(a, b);
    if b >= 2 {
      MulAtLeast(b - 1, a);
    }
  }

  lemma {:induction false} MulAtLeast(b: nat, q: nat)
    requires b >= 1
    ensures b * q >= q
  {
    if q > 0 {
      MulAtLeast(b, q - 1);
      assert b * q == b * (q - 1) + b;
    }
  }

  /** The IEEE 754 binary64 bit pattern of a Go `float64`, read as an unsigned 64-bit number. */
  type Float64 = x: int | 0 <= x < 0x1_0000_0000_0000_0000

  const POSITIVE_ZERO: Float64 := 0
  const NEGATIVE_ZERO: Float64 := 0x8000_0000_0000_0000

  /** Go's `f == 0` on a `float64`: every bit but the sign bit is clear. */
  predicate IsZero(f: Float64) {
    f % TWO_63 == 0
  }

  /** The only float64 values equal to zero are +0.0 and -0.0. */
  lemma IsZeroExactlyZeros(f: Float64)
    ensures IsZero(f) <==> f == POSITIVE_ZERO || f == NEGATIVE_ZERO
  {
    if IsZero(f) && f != POSITIVE_ZERO {
      assert f == TWO_63 * (f / TWO_63);
      assert 0 < f / TWO_63 < 2;
    }
  }

  /**
   * The float64 arithmetic the interpreter relies on, left uninterpreted:
   * the four operators and the widening conversion `float64(i)`.
   */
  datatype FloatOps = FloatOps(
    add: (Float64, Float64) -> Float64,
    sub: (Float64, Float64) -> Float64,
    mul: (Float64, Float64) -> Float64,
    div: (Float64, Float64) -> Float64,
    ofInt: Int64 -> Float64)
}
