/** Scalar arithmetic the effect engine relies on: Python's `int()` on a
    float, `min`/`max`, numpy's `clip`, and the two transcendental functions
    (10**x and log10), which stay abstract: callers pass them in and the
    proofs use only the facts stated by `Pow10Positive` and `Log10Monotone`. */
module Numerics {

  function Min(a: real, b: real): (r: real)
    ensures r <= a && r <= b && (r == a || r == b)
  {
    if a <= b then a else b
  }

  function Max(a: real, b: real): (r: real)
    ensures r >= a && r >= b && (r == a || r == b)
  {
    if a >= b then a else b
  }

  function Abs(a: real): (r: real)
    ensures r >= 0.0 && (r == a || r == -a)
  {
    if a >= 0.0 then a else -a
  }

  /** numpy's `clip(v, lo, hi)`, which is `minimum(maximum(v, lo), hi)`:
      when the bounds cross, the upper bound wins. */
  function Clip(v: real, lo: real, hi: real): (r: real)
    ensures lo <= hi ==> lo <= r <= hi
    ensures lo <= v <= hi ==> r == v
    ensures hi < lo ==> r == hi
    ensures hi <= v ==> r == hi
    ensures v <= lo <= hi ==> r == lo
  {
    Min(Max(v, lo), hi)
  }

  lemma {:induction false} ClipMonotone(v: real, w: real, lo: real, hi: real)
    requires v <= w
    ensures Clip(v, lo, hi) <= Clip(w, lo, hi)
  {
  }

  /** Python's `int(v)` on a float: truncation toward zero. */
  function Trunc(v: real): (r: int)
    ensures 0.0 <= v ==> 0 <= r && r as real <= v < r as real + 1.0
    ensures v < 0.0 ==> r <= 0 && r as real - 1.0 < v <= r as real
  {
    if v >= 0.0 then v.Floor else -((-v).Floor)
  }

  lemma {:induction false} TruncMonotone(a: real, b: real)
    requires 0.0 <= a <= b
    ensures Trunc(a) <= Trunc(b)
  {
  }

  /** Adding a whole number of samples commutes with truncation. */
  lemma {:induction false} TruncAddNat(v: real, k: nat)
    requires 0.0 <= v
    ensures Trunc(v + k as real) == Trunc(v) + k
  {
  }

  lemma {:induction false} MulMonotone(a: real, b: real, c: real)
    requires 0.0 <= a && b <= c
    ensures a * b <= a * c
  {
  }

  lemma {:induction false} DivMonotone(a: real, b: real, c: real)
    requires 0.0 < c && a <= b
    ensures a / c <= b / c
  {
  }

  /** The only fact about 10**e that the engine's reasoning needs. */
  ghost predicate Pow10Positive(pow10: real -> real)
  {
    forall e :: pow10(e) > 0.0
  }

  /** The only fact about log10 that the mappers' reasoning needs. */
  ghost predicate Log10Monotone(log10: real -> real)
  {
    forall a, b :: 0.0 < a <= b ==> log10(a) <= log10(b)
  }
}
