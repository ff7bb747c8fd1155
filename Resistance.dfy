/** Clamping and the two rubber-band resistance functions applied while a
    gesture pushes a value past its legal range. */
module Resistance {
  import opened Types
  import opened RealMath

  /** Linear rubber band: identity inside [lo, hi]; past a bound only a
      fraction of the excess is passed on, so the result moves towards the
      bound but never reaches it and never stops short of moving. */
  function RubberBand(v: real, lo: real, hi: real): (r: real)
    ensures lo <= v <= hi ==> r == v
    ensures v < lo ==> v < r < lo
    ensures lo <= v && hi < v ==> hi < r < v
  {
    if v >= lo && v <= hi then v
    else
      var excess := if v < lo then v - lo else v - hi;
      (if v < lo then lo else hi) + excess * RubberBandFactor
  }

  /** A longer drag never moves the image less far. */
  lemma RubberBandMonotone(v1: real, v2: real, lo: real, hi: real)
    requires lo <= hi && v1 <= v2
    ensures RubberBand(v1, lo, hi) <= RubberBand(v2, lo, hi)
  {
  }

  /** The rubber band never moves its output further than its input moved:
      it is continuous everywhere, in particular at `lo` and at `hi`. */
  lemma RubberBandContinuous(v1: real, v2: real, lo: real, hi: real)
    requires lo <= hi
    ensures Dist(RubberBand(v1, lo, hi), RubberBand(v2, lo, hi)) <= Dist(v1, v2)
  {
    if v1 <= v2 {
      RubberBandMonotone(v1, v2, lo, hi);
      RubberBandStep(v1, v2, lo, hi);
    } else {
      RubberBandMonotone(v2, v1, lo, hi);
      RubberBandStep(v2, v1, lo, hi);
    }
  }

  /** Over a rightward step of the input the output rises by no more. */
  lemma RubberBandStep(v1: real, v2: real, lo: real, hi: real)
    requires lo <= hi && v1 <= v2
    ensures RubberBand(v2, lo, hi) - RubberBand(v1, lo, hi) <= v2 - v1
  {
  }

  /** Scale rubber band: identity on [1, maxScale]; below 1 four tenths of
      the shortfall pass, above the cap 28 hundredths of the excess pass. */
  function RubberBandScale(raw: real, maxScale: real): (r: real)
    ensures 1.0 <= raw <= maxScale ==> r == raw
    ensures raw < 1.0 ==> raw < r < 1.0
    ensures 1.0 <= raw && maxScale < raw ==> maxScale < r < raw
    ensures raw >= 0.0 && maxScale > 0.0 ==> r > 0.0
  {
    if raw >= 1.0 && raw <= maxScale then raw
    else if raw < 1.0 then 1.0 + (raw - 1.0) * 0.4
    else maxScale + (raw - maxScale) * 0.28
  }

  /** A wider pinch never yields a smaller scale. */
  lemma RubberBandScaleMonotone(raw1: real, raw2: real, maxScale: real)
    requires 1.0 <= maxScale && raw1 <= raw2
    ensures RubberBandScale(raw1, maxScale) <= RubberBandScale(raw2, maxScale)
  {
    RubberBandScaleStep(raw1, raw2, maxScale);
  }

  /** Over a rightward step of the raw scale the output rises, by no more. */
  lemma RubberBandScaleStep(raw1: real, raw2: real, maxScale: real)
    requires 1.0 <= maxScale && raw1 <= raw2
    ensures 0.0 <= RubberBandScale(raw2, maxScale) - RubberBandScale(raw1, maxScale) <= raw2 - raw1
  {
  }

  /** No jump anywhere, in particular at 1 and at the cap: the output moves
      no further than the raw pinch scale. */
  lemma RubberBandScaleContinuous(raw1: real, raw2: real, maxScale: real)
    requires 1.0 <= maxScale
    ensures Dist(RubberBandScale(raw1, maxScale), RubberBandScale(raw2, maxScale)) <= Dist(raw1, raw2)
  {
    if raw1 <= raw2 {
      RubberBandScaleStep(raw1, raw2, maxScale);
    } else {
      RubberBandScaleStep(raw2, raw1, maxScale);
    }
  }
}
