/**
 * The two saturating operations the controllers use. Python's
 * `max(min(v, hi), lo)` lets the lower bound win when the bounds are
 * crossed; numpy's `np.clip(v, lo, hi)` is `min(max(v, lo), hi)` and lets
 * the upper bound win. They agree whenever `lo <= hi`.
 */
module Numeric {

  function Min(a: real, b: real): real { if a <= b then a else b }

  function Max(a: real, b: real): real { if a >= b then a else b }

  function Abs(a: real): real { if a < 0.0 then -a else a }

  /** `max(min(v, hi), lo)` as written in the PID controllers. */
  function Clamp(v: real, lo: real, hi: real): (r: real)
    ensures lo <= r
    ensures lo <= hi ==> r <= hi
    ensures lo <= v <= hi ==> r == v
    ensures lo <= hi && v > hi ==> r == hi
    ensures v < lo ==> r == lo
  {
    Max(Min(v, hi), lo)
  }

  /** `np.clip(v, lo, hi)`. */
  function Clip(v: real, lo: real, hi: real): (r: real)
    ensures r <= hi
    ensures lo <= hi ==> lo <= r
    ensures lo <= v <= hi ==> r == v
    ensures v > hi ==> r == hi
    ensures lo <= hi && v < lo ==> r == lo
  {
    Min(Max(v, lo), hi)
  }

  /** Both saturations give the same value on a well-formed interval. */
  lemma ClampIsClip(v: real, lo: real, hi: real)
    requires lo <= hi
    ensures Clamp(v, lo, hi) == Clip(v, lo, hi)
  {
  }

  /** They differ when the bounds cross: Python keeps `lo`, numpy keeps `hi`. */
  lemma CrossedBounds(v: real, lo: real, hi: real)
    requires hi < lo
    ensures Clamp(v, lo, hi) == lo && Clip(v, lo, hi) == hi
  {
  }
}
