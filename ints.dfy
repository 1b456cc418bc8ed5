/**
 * Integer helpers with Python's semantics where it differs from Dafny's:
 * `max(lo, min(hi, v))` clamping and `int(a / b)`, which truncates toward zero.
 */
module Ints {
  function Min(a: int, b: int): int {
    if a <= b then a else b
  }

  function Max(a: int, b: int): int {
    if a >= b then a else b
  }

  /** `max(lo, min(hi, v))`, the clamp every validator in the project writes out. */
  function Clamp(lo: int, hi: int, v: int): (r: int)
    ensures lo <= hi ==> lo <= r <= hi
    ensures lo <= v <= hi ==> r == v
    ensures hi < lo ==> r == lo
  {
    Max(lo, Min(hi, v))
  }

  /** `int(a / b)`: true division followed by truncation toward zero. */
  function TruncDiv(a: int, b: int): (q: int)
    requires b != 0
    ensures (a >= 0) == (b > 0) || a == 0 ==> q >= 0
    ensures (a < 0) != (b < 0) ==> q <= 0
    ensures Abs(q * b) <= Abs(a) < Abs(q * b) + Abs(b)
  {
    var q' := Abs(a) / Abs(b);
    if (a >= 0) == (b > 0) then q' else -q'
  }

  /** The contract of `TruncDiv` admits one quotient only, and `-5 / 3` truncates to -1. */
  lemma TruncDivUnique(a: int, b: int, q: int)
    requires b != 0
    requires (a >= 0) == (b > 0) || a == 0 ==> q >= 0
    requires (a < 0) != (b < 0) ==> q <= 0
    requires Abs(q * b) <= Abs(a) < Abs(q * b) + Abs(b)
    ensures q == TruncDiv(a, b)
    ensures TruncDiv(-5, 3) == -1
  {
    var t := TruncDiv(a, b);
    AbsMul(q, b);
    AbsMul(t, b);
    QuotientUnique(Abs(q), Abs(t), Abs(a), Abs(b));
  }

  lemma AbsMul(x: int, y: int)
    ensures Abs(x * y) == Abs(x) * Abs(y)
  {
    if x < 0 && y < 0 {
      assert x * y == (-x) * (-y);
    } else if x < 0 {
      assert -(x * y) == (-x) * y;
    } else if y < 0 {
      assert -(x * y) == x * (-y);
    }
  }

  /** Two whole quotients that both bracket `n` by multiples of `m` are equal. */
  lemma QuotientUnique(k: nat, j: nat, n: nat, m: nat)
    requires m > 0
    requires k * m <= n < k * m + m
    requires j * m <= n < j * m + m
    ensures k == j
  {
    if k < j {
      MulMono(k + 1, j, m);
    } else if j < k {
      MulMono(j + 1, k, m);
    }
  }

  lemma MulMono(x: nat, y: nat, m: nat)
    requires x <= y
    ensures x * m <= y * m
  {
  }

  /** `int(x)` for a float: the whole part, rounding toward zero. */
  function TruncReal(x: real): (q: int)
    ensures Abs(q) as real <= (if x < 0.0 then -x else x) < Abs(q) as real + 1.0
    ensures (q < 0 ==> x < 0.0) && (q > 0 ==> x > 0.0)
  {
    if x >= 0.0 then x.Floor else -((-x).Floor)
  }

  function Abs(a: int): nat {
    if a < 0 then -a else a
  }

  /**
   * Upload progress `int((n + 1) / total * 100)`, taken as exact rational
   * arithmetic (the float rounding is described in the README).
   */
  function Percent(n: int, total: int): int
    requires total != 0
  {
    TruncDiv((n + 1) * 100, total)
  }

  /** For an in-range chunk index the reported progress lies in 0..100, and the last chunk reports 100. */
  lemma PercentRange(n: int, total: int)
    requires 0 <= n < total
    ensures 0 <= Percent(n, total) <= 100
    ensures n == total - 1 ==> Percent(n, total) == 100
  {
    var a := (n + 1) * 100;
    assert a <= total * 100;
    DivBounds(a, total);
  }

  lemma DivBounds(a: nat, b: nat)
    requires 0 < b && a <= b * 100
    ensures a / b <= 100
    ensures a == b * 100 ==> a / b == 100
  {
    var q := a / b;
    assert a == b * q + a % b;
  }
}
