/** The `Math.max` / `Math.min` arithmetic the controller is built from. */
module RealMath {

  function Max(a: real, b: real): real { if a >= b then a else b }

  function Min(a: real, b: real): real { if a <= b then a else b }

  function Dist(a: real, b: real): real { if a >= b then a - b else b - a }

  /** `v` forced into [lo, hi], written as max(lo, min(hi, v)). */
  function Clamp(v: real, lo: real, hi: real): (r: real)
    ensures lo <= hi ==> lo <= r <= hi
    ensures lo <= v <= hi ==> r == v
  {
    Max(lo, Min(hi, v))
  }

  /** Clamping picks the point of the interval nearest to `v`. */
  lemma ClampIsNearest(v: real, lo: real, hi: real, w: real)
    requires lo <= w <= hi
    ensures Dist(Clamp(v, lo, hi), v) <= Dist(w, v)
  {
  }
}
