/** Per-token quantisation to integers, in exact arithmetic. */
module Quantizer {

  // ----- rounding -----

  /** Round to the nearest integer, ties to the even one. */
  function Round(x: real): int {
    var f := x.Floor;
    var d := x - f as real;
    if d < 0.5 then f else if 0.5 < d then f + 1 else if f % 2 == 0 then f else f + 1
  }

  lemma {:induction false} RoundNear(x: real)
    ensures -0.5 <= x - Round(x) as real <= 0.5
    ensures (x - Round(x) as real == 0.5 || x - Round(x) as real == -0.5) ==> Round(x) % 2 == 0
  {
  }

  lemma {:induction false} RoundMonotone(x: real, y: real)
    requires x <= y
    ensures Round(x) <= Round(y)
  {
    assert x.Floor <= y.Floor;
  }

  lemma {:induction false} RoundInt(n: int)
    ensures Round(n as real) == n
  {
  }

  // ----- the scheme -----

  datatype Scheme = Scheme(scale: real, zeroPoint: int, qmin: int, qmax: int)

  function Pow2(n: nat): nat { if n == 0 then 1 else 2 * Pow2(n - 1) }

  function Abs(x: real): real { if x < 0.0 then -x else x }
  function Larger(x: real, y: real): real { if x < y then y else x }

  function RowMin(row: seq<real>): (m: real)
    requires row != []
    ensures m in row && forall k | 0 <= k < |row| :: m <= row[k]
  {
    if |row| == 1 then row[0] else var m := RowMin(row[..|row| - 1]); var x := row[|row| - 1]; if x < m then x else m
  }

  function RowMax(row: seq<real>): (m: real)
    requires row != []
    ensures m in row && forall k | 0 <= k < |row| :: row[k] <= m
  {
    if |row| == 1 then row[0] else var m := RowMax(row[..|row| - 1]); var x := row[|row| - 1]; if m < x then x else m
  }

  const MIN_SCALE: real := 0.00001

  function Qmax(symmetric: bool, bits: nat): int { if symmetric then Pow2(Pred(bits)) - 1 else Pow2(bits) - 1 }
  function Pred(bits: nat): nat { if bits == 0 then 0 else bits - 1 }

  /** Scale and zero point of a row. */
  function SchemeOf(row: seq<real>, symmetric: bool, bits: nat): Scheme
    requires row != [] && 0 < bits && 0 < Qmax(symmetric, bits)
  {
    var lo, hi, qmax := RowMin(row), RowMax(row), Qmax(symmetric, bits);
    if symmetric then
      Scheme(Larger(Larger(Abs(lo), Abs(hi)) / qmax as real, MIN_SCALE), 0, 0 - Pow2(bits - 1), qmax)
    else
      var scale := Larger((hi - lo) / qmax as real, MIN_SCALE);
      Scheme(scale, -Round(lo / scale), 0, qmax)
  }

  function Clamp(n: int, lo: int, hi: int): int { if n < lo then lo else if hi < n then hi else n }

  function Scaled(s: Scheme, x: real): real requires 0.0 < s.scale { x / s.scale + s.zeroPoint as real }

  function Quantize(s: Scheme, x: real): int requires 0.0 < s.scale { Clamp(Round(Scaled(s, x)), s.qmin, s.qmax) }

  function Dequantize(s: Scheme, q: int): real { s.scale * (q - s.zeroPoint) as real }

  // ----- the range of scaled values -----

  lemma {:induction false} DivMonotone(x: real, y: real, s: real)
    requires x <= y && 0.0 < s
    ensures x / s <= y / s
  {
  }

  /** A value of at most `n` steps of size `s` is at most `n` after division. */
  lemma {:induction false} DivAtMost(x: real, n: real, s: real)
    requires x <= n * s && 0.0 < s
    ensures x / s <= n
  {
  }

  lemma {:induction false} ScaleCovers(x: real, n: int, s: real)
    requires 0 < n && x / n as real <= s
    ensures x <= n as real * s
  {
    var m := n as real;
    assert x == x / m * m;
  }

  lemma {:induction false} DivSub(x: real, y: real, s: real)
    requires 0.0 < s
    ensures x / s - y / s == (x - y) / s
  {
  }

  lemma {:induction false} DivNeg(x: real, s: real)
    requires 0.0 < s
    ensures (-x) / s == -(x / s)
  {
  }

  /** Scaled values of the row's elements lie between half a step below the smallest and half a step above the largest
      code. */
  lemma {:induction false} ScaledInRange(row: seq<real>, symmetric: bool, bits: nat, k: nat)
    requires k < |row| && 0 < bits && 0 < Qmax(symmetric, bits)
    ensures var s := SchemeOf(row, symmetric, bits);
            0.0 < s.scale && s.qmin <= s.qmax && s.qmin as real - 0.5 <= Scaled(s, row[k]) <= s.qmax as real + 0.5
  {
    if symmetric { SymmetricRange(row, bits, k); } else { AffineRange(row, bits, k); }
  }

  lemma {:induction false} SymmetricRange(row: seq<real>, bits: nat, k: nat)
    requires k < |row| && 0 < bits && 0 < Qmax(true, bits)
    ensures var s := SchemeOf(row, true, bits); 0.0 < s.scale && -s.qmax as real <= Scaled(s, row[k]) <= s.qmax as real
  {
    var s, n := SchemeOf(row, true, bits), Qmax(true, bits);
    var a := Larger(Abs(RowMin(row)), Abs(RowMax(row)));
    assert -a <= row[k] <= a;
    WithinSteps(row[k], a, n, s.scale);
  }

  lemma {:induction false} WithinSteps(x: real, a: real, n: int, s: real)
    requires -a <= x <= a && 0 < n && 0.0 < s && a / n as real <= s
    ensures -n as real <= x / s <= n as real
  {
    ScaleCovers(a, n, s);
    DivAtMost(x, n as real, s);
    DivAtMost(-x, n as real, s);
    DivNeg(x, s);
  }

  lemma {:induction false} AffineRange(row: seq<real>, bits: nat, k: nat)
    requires k < |row| && 0 < bits && 0 < Qmax(false, bits)
    ensures var s := SchemeOf(row, false, bits); 0.0 < s.scale && -0.5 <= Scaled(s, row[k]) <= s.qmax as real + 0.5
  {
    var s, n, lo := SchemeOf(row, false, bits), Qmax(false, bits), RowMin(row);
    ScaleCovers(RowMax(row) - lo, n, s.scale);
    RoundNear(lo / s.scale);
    DivMonotone(lo, row[k], s.scale);
    DivSub(row[k], lo, s.scale);
    DivAtMost(row[k] - lo, n as real, s.scale);
  }

  // ----- how large the scale is -----

  /** `n` steps of size `s` cover `a`, and are no more than `a` unless `s` is the floor. */
  ghost predicate Tight(a: real, n: int, s: real) {
    0.00001 <= s && a <= s * n as real && (s == 0.00001 || a == s * n as real)
  }

  lemma {:induction false} FloorOrExact(a: real, n: int, s: real)
    requires 0 < n && s == Larger(a / n as real, MIN_SCALE)
    ensures Tight(a, n, s)
  {
    ScaleCovers(a, n, s);
    assert a / n as real * n as real == a;
  }

  lemma {:induction false} Pow2Double(bits: nat)
    requires 0 < bits
    ensures Pow2(bits) == 2 * Pow2(bits - 1)
  {
  }

  /** `top` is the largest magnitude of the row. */
  ghost predicate LargestMagnitude(row: seq<real>, top: real) {
    && (forall k | 0 <= k < |row| :: Abs(row[k]) <= top)
    && exists k | 0 <= k < |row| :: Abs(row[k]) == top
  }

  /** `width` is the distance between the smallest and the largest element. */
  ghost predicate Width(row: seq<real>, width: real) {
    && (forall j, k | 0 <= j < |row| && 0 <= k < |row| :: row[k] - row[j] <= width)
    && exists j, k | 0 <= j < |row| && 0 <= k < |row| :: row[k] - row[j] == width
  }

  lemma {:induction false} Spread(row: seq<real>)
    requires row != []
    ensures LargestMagnitude(row, Larger(Abs(RowMin(row)), Abs(RowMax(row)))) && Width(row, RowMax(row) - RowMin(row))
  {
    var j :| 0 <= j < |row| && row[j] == RowMin(row);
    var k :| 0 <= k < |row| && row[k] == RowMax(row);
    assert row[k] - row[j] == RowMax(row) - RowMin(row);
    assert Abs(row[j]) == Abs(RowMin(row)) && Abs(row[k]) == Abs(RowMax(row));
  }

  /** There are 2 to the power of `bits` codes, from 0 on or half of them negative. `qmax` steps cover the largest
      magnitude of the row, or the width of its range, and with the floor aside the scale is no larger than that takes.
      */
  lemma {:induction false} ScaleTight(row: seq<real>, symmetric: bool, bits: nat) returns (a: real)
    requires row != [] && 0 < bits && 0 < Qmax(symmetric, bits)
    ensures if symmetric then LargestMagnitude(row, a) else Width(row, a)
    ensures var s := SchemeOf(row, symmetric, bits);
            && Tight(a, s.qmax, s.scale) && s.qmax - s.qmin + 1 == Pow2(bits)
            && (if symmetric then s.zeroPoint == 0 && s.qmin == -(s.qmax + 1) else s.qmin == 0)
  {
    var s, lo, hi := SchemeOf(row, symmetric, bits), RowMin(row), RowMax(row);
    a := if symmetric then Larger(Abs(lo), Abs(hi)) else hi - lo;
    Spread(row);
    Pow2Double(bits);
    FloorOrExact(a, s.qmax, s.scale);
  }

  /** The codes reach from one end to the other: above the floor some element of a symmetric row gets a code of the
      largest magnitude; the smallest element of an affine row gets code 0, and its largest, above the floor, one of the
      last two. */
  lemma {:induction false} CodesReach(row: seq<real>, symmetric: bool, bits: nat)
    requires row != [] && 0 < bits && 0 < Qmax(symmetric, bits)
    ensures var s := SchemeOf(row, symmetric, bits);
            && 0.0 < s.scale
            && (symmetric && s.scale != 0.00001 ==>
                  exists k | 0 <= k < |row| :: Quantize(s, row[k]) == s.qmax || Quantize(s, row[k]) == -s.qmax)
            && (!symmetric ==> Quantize(s, RowMin(row)) == 0)
            && (!symmetric && s.scale != 0.00001 ==> s.qmax - 1 <= Quantize(s, RowMax(row)) <= s.qmax)
  {
    var s := SchemeOf(row, symmetric, bits);
    var a := ScaleTight(row, symmetric, bits);
    if !symmetric {
      AffineEnds(row, bits);
    } else if s.scale != 0.00001 {
      var k :| 0 <= k < |row| && Abs(row[k]) == a;
      FullSteps(s, row[k]);
    }
  }

  lemma {:induction false} FullSteps(s: Scheme, x: real)
    requires 0.0 < s.scale && s.zeroPoint == 0 && 0 < s.qmax && s.qmin == -(s.qmax + 1)
    requires Abs(x) == s.scale * s.qmax as real
    ensures Quantize(s, x) == s.qmax || Quantize(s, x) == -s.qmax
  {
    var n := s.qmax;
    assert s.scale * n as real / s.scale == n as real;
    DivNeg(s.scale * n as real, s.scale);
    RoundInt(n);
    RoundInt(-n);
    assert x == s.scale * n as real || x == -(s.scale * n as real);
    assert Scaled(s, x) == n as real || Scaled(s, x) == (-n) as real;
  }

  lemma {:induction false} AffineEnds(row: seq<real>, bits: nat)
    requires row != [] && 0 < bits && 0 < Qmax(false, bits)
    ensures var s := SchemeOf(row, false, bits);
            && 0.0 < s.scale && Quantize(s, RowMin(row)) == 0
            && (s.scale != 0.00001 ==> s.qmax - 1 <= Quantize(s, RowMax(row)) <= s.qmax)
  {
    var s, lo, hi := SchemeOf(row, false, bits), RowMin(row), RowMax(row);
    RoundNear(lo / s.scale);
    RoundSmall(Scaled(s, lo));
    FloorOrExact(hi - lo, s.qmax, s.scale);
    if s.scale != 0.00001 {
      StepsApart(lo, hi, s.scale, s.qmax);
      RoundNear(Scaled(s, hi));
    }
  }

  lemma {:induction false} StepsApart(lo: real, hi: real, s: real, n: int)
    requires 0.0 < s && Tight(hi - lo, n, s) && s != 0.00001
    ensures hi / s == lo / s + n as real
  {
    DivSub(hi, lo, s);
    assert s * n as real / s == n as real;
  }

  lemma {:induction false} RoundSmall(x: real)
    requires -0.5 <= x <= 0.5
    ensures Round(x) == 0
  {
  }

  // ----- the laws -----

  lemma {:induction false} ScaleError(scale: real, e: real)
    requires 0.0 < scale && -0.5 <= e <= 0.5
    ensures Abs(scale * e) <= scale / 2.0
  {
    TimesMonotone(scale, -0.5, e);
    TimesMonotone(scale, e, 0.5);
  }

  lemma {:induction false} TimesMonotone(s: real, x: real, y: real)
    requires 0.0 < s && x <= y
    ensures s * x <= s * y
  {
  }

  lemma {:induction false} ScaledBack(s: Scheme, x: real, q: int, e: real)
    requires 0.0 < s.scale && e == Scaled(s, x) - q as real
    ensures x - Dequantize(s, q) == s.scale * e
  {
    var z := s.zeroPoint as real;
    assert s.scale * (x / s.scale) == x;
    assert (q - s.zeroPoint) as real == q as real - z;
  }

  lemma {:induction false} HalfStep(s: Scheme, x: real, q: int, e: real)
    requires 0.0 < s.scale && e == Scaled(s, x) - q as real && -0.5 <= e <= 0.5
    ensures Abs(x - Dequantize(s, q)) <= s.scale / 2.0
  {
    ScaledBack(s, x, q, e);
    ScaleError(s.scale, e);
  }

  lemma {:induction false} ErrorWithin(s: Scheme, x: real)
    requires 0.0 < s.scale && s.qmin <= s.qmax && s.qmin as real - 0.5 <= Scaled(s, x) <= s.qmax as real + 0.5
    ensures Abs(x - Dequantize(s, Quantize(s, x))) <= s.scale / 2.0
  {
    var q := Quantize(s, x);
    RoundNear(Scaled(s, x));
    ClampNear(Scaled(s, x), s.qmin, s.qmax);
    HalfStep(s, x, q, Scaled(s, x) - q as real);
  }

  lemma {:induction false} ClampNear(u: real, lo: int, hi: int)
    requires lo <= hi && lo as real - 0.5 <= u <= hi as real + 0.5
    ensures -0.5 <= u - Clamp(Round(u), lo, hi) as real <= 0.5
  {
    RoundNear(u);
  }

  /** Rounding and clamping together cost at most half a step: the clamp never costs more than rounding. */
  lemma {:induction false} ErrorBound(row: seq<real>, symmetric: bool, bits: nat, k: nat)
    requires k < |row| && 0 < bits && 0 < Qmax(symmetric, bits)
    ensures var s := SchemeOf(row, symmetric, bits);
            0.0 < s.scale && Abs(row[k] - Dequantize(s, Quantize(s, row[k]))) <= s.scale / 2.0
  {
    ScaledInRange(row, symmetric, bits, k);
    ErrorWithin(SchemeOf(row, symmetric, bits), row[k]);
  }

  /** Quantisation keeps the order of values, under any scheme. */
  lemma {:induction false} QuantizeMonotone(s: Scheme, x: real, y: real)
    requires 0.0 < s.scale && x <= y && s.qmin <= s.qmax
    ensures s.qmin <= Quantize(s, x) <= Quantize(s, y) <= s.qmax
  {
    DivMonotone(x, y, s.scale);
    RoundMonotone(Scaled(s, x), Scaled(s, y));
  }

  /** Every code in range comes back from its own value. */
  lemma {:induction false} CodeRoundTrip(s: Scheme, q: int)
    requires 0.0 < s.scale && s.qmin <= q <= s.qmax
    ensures Quantize(s, Dequantize(s, q)) == q
  {
    var d := (q - s.zeroPoint) as real;
    assert s.scale * d / s.scale == d;
    RoundInt(q);
    assert Scaled(s, Dequantize(s, q)) == q as real;
  }

  lemma {:induction false} Pow2AtMost(n: nat, m: nat)
    requires n <= m
    ensures 1 <= Pow2(n) <= Pow2(m)
  {
    if n < m { Pow2AtMost(n, m - 1); } else if 0 < n { Pow2AtMost(n - 1, n - 1); }
  }

  /** With at most 8 bits every code fits the byte it is stored in. */
  lemma {:induction false} CodesFitBytes(row: seq<real>, symmetric: bool, bits: nat, k: nat)
    requires k < |row| && 0 < bits <= 8 && 0 < Qmax(symmetric, bits)
    ensures var s := SchemeOf(row, symmetric, bits);
            0.0 < s.scale && if symmetric then -128 <= Quantize(s, row[k]) <= 127 else 0 <= Quantize(s, row[k]) <= 255
  {
    ScaledInRange(row, symmetric, bits, k);
    Pow2AtMost(bits, 8);
    Pow2AtMost(bits - 1, 7);
    assert Pow2(7) == 128 && Pow2(8) == 256;
  }

  /** The codes of a whole row. */
  function Codes(row: seq<real>, symmetric: bool, bits: nat): (q: seq<int>)
    requires row != [] && 0 < bits && 0 < Qmax(symmetric, bits)
    ensures |q| == |row|
    ensures var s := SchemeOf(row, symmetric, bits);
            forall k | 0 <= k < |row| :: Abs(row[k] - Dequantize(s, q[k])) <= s.scale / 2.0
    ensures forall j, k | 0 <= j < |row| && 0 <= k < |row| && row[j] <= row[k] :: q[j] <= q[k]
  {
    var s := SchemeOf(row, symmetric, bits);
    RowLaws(row, symmetric, bits);
    seq(|row|, k requires 0 <= k < |row| => Quantize(s, row[k]))
  }

  lemma {:induction false} RowLaws(row: seq<real>, symmetric: bool, bits: nat)
    requires row != [] && 0 < bits && 0 < Qmax(symmetric, bits)
    ensures var s := SchemeOf(row, symmetric, bits);
            && 0.0 < s.scale
            && (forall k | 0 <= k < |row| :: Abs(row[k] - Dequantize(s, Quantize(s, row[k]))) <= s.scale / 2.0)
            && forall j, k | 0 <= j < |row| && 0 <= k < |row| && row[j] <= row[k] ::
               Quantize(s, row[j]) <= Quantize(s, row[k])
  {
    var s := SchemeOf(row, symmetric, bits);
    ScaledInRange(row, symmetric, bits, 0);
    forall k | 0 <= k < |row| ensures Abs(row[k] - Dequantize(s, Quantize(s, row[k]))) <= s.scale / 2.0 {
      ErrorBound(row, symmetric, bits, k);
    }
    forall j, k | 0 <= j < |row| && 0 <= k < |row| && row[j] <= row[k]
      ensures Quantize(s, row[j]) <= Quantize(s, row[k])
    {
      QuantizeMonotone(s, row[j], row[k]);
    }
  }
}
