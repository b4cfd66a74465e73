/**
  Min-max normalisation of a numeric column against the dataset-wide bounds.
  The same bounds rescale the historical rows and the query.
 */
module Normalization {

  /** The observed minimum and maximum of a column. */
  datatype Bounds = Bounds(lo: real, hi: real)

  /** The source divides by `hi - lo` without a guard, so the range must not be degenerate. */
  predicate Proper(b: Bounds)
  {
    b.lo < b.hi
  }

  /** The column minimum (pandas `Series.min`). */
  function MinOf(s: seq<real>): (r: real)
    requires |s| > 0
    ensures r in s
    ensures forall i :: 0 <= i < |s| ==> r <= s[i]
  {
    if |s| == 1 then s[0]
    else
      var m := MinOf(s[1..]);
      if s[0] <= m then s[0] else m
  }

  /** The column maximum (pandas `Series.max`). */
  function MaxOf(s: seq<real>): (r: real)
    requires |s| > 0
    ensures r in s
    ensures forall i :: 0 <= i < |s| ==> s[i] <= r
  {
    if |s| == 1 then s[0]
    else
      var m := MaxOf(s[1..]);
      if s[0] >= m then s[0] else m
  }

  /** The bounds of a non-empty column: every value lies between them and both are attained. */
  function BoundsOf(s: seq<real>): (b: Bounds)
    requires |s| > 0
    ensures b.lo in s && b.hi in s
    ensures forall i :: 0 <= i < |s| ==> b.lo <= s[i] <= b.hi
  {
    Bounds(MinOf(s), MaxOf(s))
  }

  /** `(v - min) / (max - min)`. */
  function Normalize(v: real, b: Bounds): (n: real)
    requires Proper(b)
    ensures v == b.lo ==> n == 0.0
    ensures v == b.hi ==> n == 1.0
    ensures b.lo <= v <= b.hi ==> 0.0 <= n <= 1.0
    ensures v < b.lo ==> n < 0.0
    ensures b.hi < v ==> 1.0 < n
  {
    var d := b.hi - b.lo;
    QuotientSign(v - b.lo, d);
    QuotientSign(v - b.hi, d);
    QuotientShift(v - b.lo, d);
    (v - b.lo) / d
  }

  /** Subtracting the divisor from the dividend lowers the quotient by one. */
  lemma QuotientShift(x: real, d: real)
    requires d > 0.0
    ensures x / d - 1.0 == (x - d) / d
  {
    assert (x - d) / d == x / d - d / d;
    assert d / d == 1.0;
  }

  /** The sign of a quotient by a positive divisor is the sign of the dividend. */
  lemma QuotientSign(x: real, d: real)
    requires d > 0.0
    ensures x == 0.0 <==> x / d == 0.0
    ensures x < 0.0 <==> x / d < 0.0
  {
  }

  /** The inverse rescaling, from [0, 1] back to the column's range. */
  function Denormalize(n: real, b: Bounds): real
  {
    b.lo + n * (b.hi - b.lo)
  }

  /** Normalisation loses nothing: rescaling back gives the original value. */
  lemma DenormalizeNormalize(v: real, b: Bounds)
    requires Proper(b)
    ensures Denormalize(Normalize(v, b), b) == v
  {
  }

  /** Normalisation preserves order, so comparing normalised values compares the raw ones. */
  lemma NormalizeMonotone(v: real, w: real, b: Bounds)
    requires Proper(b)
    ensures v <= w <==> Normalize(v, b) <= Normalize(w, b)
  {
    var d := b.hi - b.lo;
    assert Normalize(w, b) - Normalize(v, b) == (w - v) / d;
  }

  /**
    Every value of a column normalises into [0, 1] against the column's own bounds,
    some value to exactly 0 and some value to exactly 1.
   */
  lemma ColumnNormalizesToUnit(s: seq<real>)
    requires |s| > 0 && Proper(BoundsOf(s))
    ensures forall i :: 0 <= i < |s| ==> 0.0 <= Normalize(s[i], BoundsOf(s)) <= 1.0
    ensures exists i :: 0 <= i < |s| && Normalize(s[i], BoundsOf(s)) == 0.0
    ensures exists j :: 0 <= j < |s| && Normalize(s[j], BoundsOf(s)) == 1.0
  {
  }
}
