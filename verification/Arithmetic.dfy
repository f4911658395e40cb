/** Fixed-width integers, the truncating division of the source language, and the
    failure-compatible result types shared by every module. */
module Arithmetic {

  const I64_MAX: int := 0x7FFF_FFFF_FFFF_FFFF
  const I64_MIN: int := -0x8000_0000_0000_0000
  const U16_MAX: int := 0xFFFF
  const U32_MAX: int := 0xFFFF_FFFF
  const U64_MAX: int := 0xFFFF_FFFF_FFFF_FFFF
  const I128_MAX: int := 0x7FFF_FFFF_FFFF_FFFF_FFFF_FFFF_FFFF_FFFF
  const U128_MAX: int := 0xFFFF_FFFF_FFFF_FFFF_FFFF_FFFF_FFFF_FFFF

  type u8 = x: int | 0 <= x <= 0xFF
  type u16 = x: int | 0 <= x <= 0xFFFF
  type u32 = x: int | 0 <= x <= 0xFFFF_FFFF
  type u64 = x: int | 0 <= x <= 0xFFFF_FFFF_FFFF_FFFF
  type i64 = x: int | -0x8000_0000_0000_0000 <= x <= 0x7FFF_FFFF_FFFF_FFFF

  datatype Option<+T> = None | Some(value: T)

  datatype Result<+T, +E> = Ok(value: T) | Err(error: E) {
    predicate IsFailure() {
      Err?
    }

    function PropagateFailure<U>(): Result<U, E>
      requires Err?
    {
      Err(error)
    }

    function Extract(): T
      requires Ok?
    {
      value
    }
  }

  predicate FitsI64(x: int) {
    I64_MIN <= x <= I64_MAX
  }

  function Min(a: int, b: int): int {
    if a <= b then a else b
  }

  function Max(a: int, b: int): int {
    if a >= b then a else b
  }

  function Abs(a: int): nat {
    if a < 0 then -a else a
  }

  /** Integer division that truncates toward zero, for any sign of the dividend. */
  function TruncDiv(a: int, b: int): int
    requires 0 < b
    decreases a < 0
  {
    if a < 0 then -TruncDiv(-a, b) else a / b
  }

  lemma TruncDivMono(a: int, b: int, d: int)
    requires a <= b && 0 < d
    ensures TruncDiv(a, d) <= TruncDiv(b, d)
  {
    if 0 <= a {
      DivMono(a, b, d);
    } else if b < 0 {
      DivMono(-b, -a, d);
      assert TruncDiv(-a, d) >= TruncDiv(-b, d);
    } else {
      DivMono(0, -a, d);
      DivMono(0, b, d);
      assert TruncDiv(-a, d) >= 0;
    }
  }

  /** Narrows a wider intermediate value to 64 bits; one that does not fit is the error. */
  function ToI64<E>(x: int, error: E): Result<i64, E> {
    if FitsI64(x) then Ok(x) else Err(error)
  }

  function Pow10(n: nat): (p: nat)
    ensures p > 0
  {
    if n == 0 then 1 else 10 * Pow10(n - 1)
  }

  lemma {:induction false} Pow10Sum(m: nat, n: nat)
    ensures Pow10(m + n) == Pow10(m) * Pow10(n)
  {
    if m == 0 {
    } else {
      Pow10Sum(m - 1, n);
      assert Pow10(m + n) == 10 * (Pow10(m - 1) * Pow10(n));
      assert Pow10(m) == 10 * Pow10(m - 1);
      MulAssoc(10, Pow10(m - 1), Pow10(n));
    }
  }

  lemma MulAssoc(a: int, b: int, c: int)
    ensures a * (b * c) == (a * b) * c
  {
  }

  lemma MulMono(a: int, b: int, c: int)
    requires a <= b && 0 <= c
    ensures a * c <= b * c
  {
  }

  lemma MulStrict(a: int, b: int, c: int)
    requires a < b && 0 < c
    ensures a * c < b * c
  {
  }

  /** The quotient is pinned between two multiples of the divisor. */
  lemma DivBounds(a: int, b: int)
    requires 0 < b
    ensures (a / b) * b <= a < (a / b + 1) * b
    ensures (a / b + 1) * b == (a / b) * b + b
  {
    assert a == (a / b) * b + a % b;
  }

  lemma DivNat(a: nat, b: int)
    requires 0 < b
    ensures a / b >= 0
  {
  }

  /** Conversely, two consecutive multiples pin the quotient. */
  lemma DivUnique(a: int, b: int, q: int)
    requires 0 < b && q * b <= a < (q + 1) * b
    ensures a / b == q
  {
    DivBounds(a, b);
    if a / b < q {
      MulMono(a / b + 1, q, b);
    } else if q < a / b {
      MulMono(q + 1, a / b, b);
    }
  }

  lemma DivMono(a: int, b: int, d: int)
    requires a <= b && 0 < d
    ensures a / d <= b / d
  {
    DivBounds(a, d);
    DivBounds(b, d);
    if b / d < a / d {
      MulMono(b / d + 1, a / d, d);
    }
  }

  /** An integer is at most a floored quotient exactly when it is at most the quotient. */
  lemma AtMostFloor(x: int, a: int, d: int)
    requires 0 < d
    ensures x <= a / d <==> x * d <= a
  {
    DivBounds(a, d);
    if x <= a / d {
      MulMono(x, a / d, d);
    }
    if a / d < x {
      MulMono(a / d + 1, x, d);
    }
  }

  /** A ceiling division is the least integer whose multiple reaches the dividend. */
  lemma CeilBounds(n: int, d: int)
    requires 0 < d
    ensures ((n + d - 1) / d) * d >= n
    ensures ((n + d - 1) / d - 1) * d < n
  {
    DivBounds(n + d - 1, d);
    assert ((n + d - 1) / d - 1) * d == ((n + d - 1) / d) * d - d;
  }

  lemma CeilUnique(n: int, d: int, q: int)
    requires 0 < d && (q - 1) * d < n <= q * d
    ensures (n + d - 1) / d == q
  {
    assert (q - 1) * d == q * d - d;
    assert (q + 1) * d == q * d + d;
    DivUnique(n + d - 1, d, q);
  }
}
