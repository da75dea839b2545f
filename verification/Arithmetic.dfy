/** Rounding division and the little that is needed about it. */
module Arithmetic {

  function Cdiv(x: nat, n: nat): nat
    requires 0 < n
  {
    (x + n - 1) / n
  }

  function Min(x: int, y: int): int { if x < y then x else y }

  /** `Cdiv` counts the multiples of `n` below `x`. */
  lemma {:induction false} CdivBounds(x: nat, n: nat)
    requires 0 < n
    ensures x <= Cdiv(x, n) * n < x + n
  {
    var q := (x + n - 1) / n;
    assert x + n - 1 == q * n + (x + n - 1) % n;
  }

  lemma {:induction false} MulMonotone(a: int, b: int, n: nat)
    requires a <= b
    ensures a * n <= b * n
  {
    assert b * n == a * n + (b - a) * n;
    if a < b { assert (b - a) * n >= 0; }
  }

  lemma {:induction false} CdivUnique(x: nat, n: nat, q: nat)
    requires 0 < n && x <= q * n < x + n
    ensures Cdiv(x, n) == q
  {
    CdivBounds(x, n);
    var c := Cdiv(x, n);
    assert (c + 1) * n == c * n + n && (q + 1) * n == q * n + n;
    if c < q { MulMonotone(c + 1, q, n); }
    if q < c { MulMonotone(q + 1, c, n); }
  }

  lemma {:induction false} CdivMonotone(x: nat, y: nat, n: nat)
    requires 0 < n && x <= y
    ensures Cdiv(x, n) <= Cdiv(y, n)
  {
    CdivBounds(x, n);
    CdivBounds(y, n);
    var c := Cdiv(y, n);
    assert (c + 1) * n == c * n + n;
    if c < Cdiv(x, n) { MulMonotone(c + 1, Cdiv(x, n), n); }
  }

  lemma {:induction false} DivUnique(x: nat, n: nat, q: nat)
    requires 0 < n && q * n <= x < q * n + n
    ensures x / n == q
  {
    var c := x / n;
    assert x == c * n + x % n;
    assert (c + 1) * n == c * n + n && (q + 1) * n == q * n + n;
    if c < q { MulMonotone(c + 1, q, n); }
    if q < c { MulMonotone(q + 1, c, n); }
  }

  /** `x` rounded up to a multiple of `n`. */
  function AlignUp(x: nat, n: nat): nat
    requires 0 < n
  {
    (x + n - 1) / n * n
  }

  lemma {:induction false} MultipleOf(k: nat, n: nat)
    requires 0 < n
    ensures k * n % n == 0
  {
    DivUnique(k * n, n, k);
    assert k * n == k * n / n * n + k * n % n;
  }

  /** Rounding up gives the least multiple that is not below. */
  lemma {:induction false} AlignUpLeast(x: nat, n: nat)
    requires 0 < n
    ensures x <= AlignUp(x, n) < x + n && AlignUp(x, n) % n == 0
  {
    CdivBounds(x, n);
    MultipleOf(Cdiv(x, n), n);
  }
}
