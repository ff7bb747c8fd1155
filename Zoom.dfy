/** The gesture-to-transform controller of one mounted image: the six shared
    values, the pinch, pan and double-tap handlers that update them in
    place, and the two engine steps (a frame, and coming to rest) through
    which running animations move them.

    Handlers run one at a time in any order; each keeps `Valid()`, so every
    interleaving of them does. */
module Zoom {
  import opened Types
  import opened RealMath
  import opened Geometry
  import opened Resistance
  import opened Animation

  /** Above this scale a double tap resets instead of zooming. */
  const ResetThreshold: real := 1.1

  /** The image point (relative to the image centre, before scaling) shown at
      screen offset `f` when the image is translated by `t` and scaled by `s`. */
  function ImagePointUnder(f: real, t: real, s: real): real
    requires s != 0.0
  {
    (f - t) / s
  }

  /** The translation after a zoom from `s` to `s2` about the focus `f`:
      the image point under the focus stays under the focus. */
  function FocusTranslate(f: real, t: real, s: real, s2: real): (t2: real)
    requires s != 0.0 && s2 != 0.0
    ensures ImagePointUnder(f, t2, s2) == ImagePointUnder(f, t, s)
  {
    var ratio := s2 / s;
    var t2 := f + (t - f) * ratio;
    assert f - t2 == (f - t) * s2 / s;
    t2
  }

  /** The focus-preserving translation is the only one that keeps the image
      point under the focus. */
  lemma FocusTranslateUnique(f: real, t: real, s: real, s2: real, t2: real)
    requires s != 0.0 && s2 != 0.0
    requires ImagePointUnder(f, t2, s2) == ImagePointUnder(f, t, s)
    ensures t2 == FocusTranslate(f, t, s, s2)
  {
  }

  /** A tap at the centre of an image that is not translated keeps it centred. */
  lemma CentreTapKeepsCentre(s: real, s2: real)
    requires s != 0.0 && s2 != 0.0
    ensures FocusTranslate(0.0, 0.0, s, s2) == 0.0
  {
  }

  class ZoomController {
    const layout: Layout
    const cfg: Config

    var scale: Cell
    /** Scale captured when a pinch begins. */
    var pinchSavedScale: real
    var translateX: Cell
    var translateY: Cell
    /** Translation captured when a pan begins. */
    var panSavedTX: real
    var panSavedTY: real

    /** Dimensions are positive, the scale and both scale settings are
        positive (so the double-tap ratio is defined), the scale is never
        flung, and every fling has a non-empty clamp interval. */
    predicate Valid()
      reads this
    {
      layout.Valid() && cfg.maxScale > 0.0 && cfg.doubleTapScale > 0.0 &&
      !scale.motion.Decay? && scale.value > 0.0 && Target(scale) > 0.0 &&
      pinchSavedScale > 0.0 &&
      WellFormed(translateX) && WellFormed(translateY)
    }

    /** Wherever the running animations come to rest, the scale is in
        [1, maxScale] and the translation is within the bounds at that scale. */
    predicate SettlesInEnvelope()
      reads this
      requires Valid()
    {
      var s := Target(scale);
      var b := layout.MaxTranslate(s);
      1.0 <= s <= cfg.maxScale &&
      SettlesWithin(translateX, -b.maxX, b.maxX) &&
      SettlesWithin(translateY, -b.maxY, b.maxY)
    }

    /** No animation runs and the transform is in its legal envelope. */
    predicate AtRest()
      reads this
      requires Valid()
    {
      var b := layout.MaxTranslate(scale.value);
      scale.motion.Still? && translateX.motion.Still? && translateY.motion.Still? &&
      1.0 <= scale.value <= cfg.maxScale &&
      -b.maxX <= translateX.value <= b.maxX &&
      -b.maxY <= translateY.value <= b.maxY
    }

    /** A fresh mount: unit scale, horizontally centred, vertically at the
        initial offset, baselines equal to the values. */
    constructor (layout: Layout, cfg: Config)
      requires layout.Valid() && cfg.maxScale > 0.0 && cfg.doubleTapScale > 0.0
      ensures Valid()
      ensures this.layout == layout && this.cfg == cfg
      ensures scale == Set(1.0) && pinchSavedScale == 1.0
      ensures translateX == Set(0.0) && translateY == Set(layout.InitTranslateY())
      ensures panSavedTX == 0.0 && panSavedTY == layout.InitTranslateY()
      ensures cfg.maxScale >= 1.0 ==> AtRest()
    {
      this.layout := layout;
      this.cfg := cfg;
      scale := Set(1.0);
      pinchSavedScale := 1.0;
      translateX := Set(0.0);
      translateY := Set(layout.InitTranslateY());
      panSavedTX := 0.0;
      panSavedTY := layout.InitTranslateY();
      new;
      InitialPoseInBounds(layout);
    }

    /** Pinch begins: the scale animation is stopped and its current value,
        not its target, becomes the baseline. */
    method PinchBegin()
      requires Valid()
      modifies this
      ensures Valid()
      ensures scale == Cancel(old(scale)) && pinchSavedScale == old(scale.value)
      ensures translateX == old(translateX) && translateY == old(translateY)
      ensures panSavedTX == old(panSavedTX) && panSavedTY == old(panSavedTY)
    {
      scale := Cancel(scale);
      pinchSavedScale := scale.value;
    }

    /** Pinch moves: the scale follows the baseline times the pinch factor,
        with resistance outside [1, maxScale]; the translation is untouched. */
    method PinchUpdate(factor: real)
      requires Valid() && factor >= 0.0
      modifies this
      ensures Valid()
      ensures scale == Set(RubberBandScale(old(pinchSavedScale) * factor, cfg.maxScale))
      ensures pinchSavedScale == old(pinchSavedScale)
      ensures translateX == old(translateX) && translateY == old(translateY)
      ensures panSavedTX == old(panSavedTX) && panSavedTY == old(panSavedTY)
    {
      scale := Set(RubberBandScale(pinchSavedScale * factor, cfg.maxScale));
    }

    /** Pinch ends: the scale springs back into [1, maxScale], the translation
        springs into the bounds at that target scale, and all three baselines
        take the targets. */
    method PinchEnd()
      requires Valid()
      modifies this
      ensures Valid()
      ensures var target := Clamp(old(scale.value), 1.0, cfg.maxScale);
              var b := layout.MaxTranslate(target);
              scale == SpringTo(old(scale), target) && pinchSavedScale == target &&
              panSavedTX == Clamp(old(translateX.value), -b.maxX, b.maxX) &&
              panSavedTY == Clamp(old(translateY.value), -b.maxY, b.maxY)
      ensures translateX == SpringTo(old(translateX), panSavedTX)
      ensures translateY == SpringTo(old(translateY), panSavedTY)
      ensures pinchSavedScale == Target(scale)
      ensures cfg.maxScale >= 1.0 ==> SettlesInEnvelope()
    {
      var target := Clamp(scale.value, 1.0, cfg.maxScale);
      scale := SpringTo(scale, target);
      pinchSavedScale := target;

      var b := layout.MaxTranslate(target);
      var clampedX := Clamp(translateX.value, -b.maxX, b.maxX);
      var clampedY := Clamp(translateY.value, -b.maxY, b.maxY);
      translateX := SpringTo(translateX, clampedX);
      translateY := SpringTo(translateY, clampedY);
      panSavedTX := clampedX;
      panSavedTY := clampedY;
    }

    /** Pan begins: both translate animations (spring or fling) are stopped
        and their current values, not their targets, become the baselines. */
    method PanBegin()
      requires Valid()
      modifies this
      ensures Valid()
      ensures translateX == Cancel(old(translateX)) && panSavedTX == old(translateX.value)
      ensures translateY == Cancel(old(translateY)) && panSavedTY == old(translateY.value)
      ensures scale == old(scale) && pinchSavedScale == old(pinchSavedScale)
    {
      translateX := Cancel(translateX);
      translateY := Cancel(translateY);
      panSavedTX := translateX.value;
      panSavedTY := translateY.value;
    }

    /** Pan moves: baseline plus the drag, with resistance outside the
        bounds at the live scale; scale and baselines are untouched. */
    method PanUpdate(dx: real, dy: real)
      requires Valid()
      modifies this
      ensures Valid()
      ensures var b := layout.MaxTranslate(old(scale.value));
              translateX == Set(RubberBand(old(panSavedTX) + dx, -b.maxX, b.maxX)) &&
              translateY == Set(RubberBand(old(panSavedTY) + dy, -b.maxY, b.maxY))
      ensures scale == old(scale) && pinchSavedScale == old(pinchSavedScale)
      ensures panSavedTX == old(panSavedTX) && panSavedTY == old(panSavedTY)
    {
      var b := layout.MaxTranslate(scale.value);
      translateX := Set(RubberBand(panSavedTX + dx, -b.maxX, b.maxX));
      translateY := Set(RubberBand(panSavedTY + dy, -b.maxY, b.maxY));
    }

    /** Pan ends: each axis flings with the release velocity, clamped to the
        bounds at the live scale value; the baselines take the value read
        right after, which is the current position, not where the fling
        will stop. The translation settles in the envelope when the scale is
        at rest in [1, maxScale]; when a scale spring is still running it
        need not (see `LiftPinchFirstScenario`). */
    method PanEnd(velocityX: real, velocityY: real)
      requires Valid()
      modifies this
      ensures Valid()
      ensures var b := layout.MaxTranslate(old(scale.value));
              translateX == DecayIn(old(translateX), velocityX, -b.maxX, b.maxX) &&
              translateY == DecayIn(old(translateY), velocityY, -b.maxY, b.maxY)
      ensures panSavedTX == old(translateX.value) && panSavedTY == old(translateY.value)
      ensures scale == old(scale) && pinchSavedScale == old(pinchSavedScale)
      ensures scale.motion.Still? && 1.0 <= scale.value <= cfg.maxScale ==> SettlesInEnvelope()
    {
      var b := layout.MaxTranslate(scale.value);
      translateX := DecayIn(translateX, velocityX, -b.maxX, b.maxX);
      translateY := DecayIn(translateY, velocityY, -b.maxY, b.maxY);
      panSavedTX := translateX.value;
      panSavedTY := translateY.value;
    }

    /** Pan end with the fling clamped to the bounds at the scale the scale
        animation comes to rest at: the translation then always settles in
        the envelope once the scale target is legal. */
    method PanEndAtRestScale(velocityX: real, velocityY: real)
      requires Valid()
      modifies this
      ensures Valid()
      ensures var b := layout.MaxTranslate(Target(old(scale)));
              translateX == DecayIn(old(translateX), velocityX, -b.maxX, b.maxX) &&
              translateY == DecayIn(old(translateY), velocityY, -b.maxY, b.maxY)
      ensures panSavedTX == old(translateX.value) && panSavedTY == old(translateY.value)
      ensures scale == old(scale) && pinchSavedScale == old(pinchSavedScale)
      ensures 1.0 <= Target(scale) <= cfg.maxScale ==> SettlesInEnvelope()
    {
      var b := layout.MaxTranslate(Target(scale));
      translateX := DecayIn(translateX, velocityX, -b.maxX, b.maxX);
      translateY := DecayIn(translateY, velocityY, -b.maxY, b.maxY);
      panSavedTX := translateX.value;
      panSavedTY := translateY.value;
    }

    /** Double tap at screen position (absoluteX, absoluteY). Above the reset
        threshold everything springs back to the initial pose; otherwise the
        image zooms to `doubleTapScale` about the tapped point, clamped into
        the bounds at that scale. Baselines take the targets either way. */
    method DoubleTap(absoluteX: real, absoluteY: real)
      requires Valid()
      modifies this
      ensures Valid()
      ensures old(scale.value) > ResetThreshold ==>
                scale == SpringTo(old(scale), 1.0) && pinchSavedScale == 1.0 &&
                translateX == SpringTo(old(translateX), 0.0) &&
                translateY == SpringTo(old(translateY), layout.InitTranslateY()) &&
                panSavedTX == 0.0 && panSavedTY == layout.InitTranslateY()
      ensures old(scale.value) <= ResetThreshold ==>
                var fx := absoluteX - layout.containerWidth / 2.0;
                var fy := absoluteY - layout.containerHeight / 2.0;
                var b := layout.MaxTranslate(cfg.doubleTapScale);
                scale == SpringTo(old(scale), cfg.doubleTapScale) &&
                pinchSavedScale == cfg.doubleTapScale &&
                panSavedTX == Clamp(FocusTranslate(fx, old(translateX.value), old(scale.value), cfg.doubleTapScale), -b.maxX, b.maxX) &&
                panSavedTY == Clamp(FocusTranslate(fy, old(translateY.value), old(scale.value), cfg.doubleTapScale), -b.maxY, b.maxY) &&
                translateX == SpringTo(old(translateX), panSavedTX) &&
                translateY == SpringTo(old(translateY), panSavedTY)
      ensures old(scale.value) > ResetThreshold && cfg.maxScale >= 1.0 ==> SettlesInEnvelope()
      ensures old(scale.value) <= ResetThreshold && 1.0 <= cfg.doubleTapScale <= cfg.maxScale ==> SettlesInEnvelope()
    {
      if scale.value > ResetThreshold {
        scale := SpringTo(scale, 1.0);
        pinchSavedScale := 1.0;
        translateX := SpringTo(translateX, 0.0);
        translateY := SpringTo(translateY, layout.InitTranslateY());
        panSavedTX := 0.0;
        panSavedTY := layout.InitTranslateY();
        InitialPoseInBounds(layout);
      } else {
        var fRelX := absoluteX - layout.containerWidth / 2.0;
        var fRelY := absoluteY - layout.containerHeight / 2.0;
        var newTX := FocusTranslate(fRelX, translateX.value, scale.value, cfg.doubleTapScale);
        var newTY := FocusTranslate(fRelY, translateY.value, scale.value, cfg.doubleTapScale);

        var b := layout.MaxTranslate(cfg.doubleTapScale);
        var clampedX := Clamp(newTX, -b.maxX, b.maxX);
        var clampedY := Clamp(newTY, -b.maxY, b.maxY);

        scale := SpringTo(scale, cfg.doubleTapScale);
        pinchSavedScale := cfg.doubleTapScale;
        translateX := SpringTo(translateX, clampedX);
        translateY := SpringTo(translateY, clampedY);
        panSavedTX := clampedX;
        panSavedTY := clampedY;
      }
    }

    /** One frame of the animation engine: every running animation moves to
        the given position, still values stay put, baselines are untouched.
        A running scale animation is assumed not to pass through zero. */
    method Frame(s: real, x: real, y: real)
      requires Valid()
      requires !scale.motion.Still? ==> s > 0.0
      modifies this
      ensures Valid()
      ensures scale == Advance(old(scale), s)
      ensures translateX == Advance(old(translateX), x) && translateY == Advance(old(translateY), y)
      ensures pinchSavedScale == old(pinchSavedScale)
      ensures panSavedTX == old(panSavedTX) && panSavedTY == old(panSavedTY)
    {
      scale := Advance(scale, s);
      translateX := Advance(translateX, x);
      translateY := Advance(translateY, y);
    }

    /** Every running animation comes to rest; each fling stops at a point
        of its clamp interval chosen by the engine. A state that settles in
        the envelope is then at rest. */
    method Settle(landX: real, landY: real)
      requires Valid()
      requires MayLandAt(translateX, landX) && MayLandAt(translateY, landY)
      modifies this
      ensures Valid()
      ensures scale == Set(Target(old(scale)))
      ensures translateX == Set(Land(old(translateX), landX))
      ensures translateY == Set(Land(old(translateY), landY))
      ensures pinchSavedScale == old(pinchSavedScale)
      ensures panSavedTX == old(panSavedTX) && panSavedTY == old(panSavedTY)
      ensures old(SettlesInEnvelope()) ==> AtRest()
    {
      scale := Set(Target(scale));
      translateX := Set(Land(translateX, landX));
      translateY := Set(Land(translateY, landY));
    }
  }

  /** Container 400 x 800 showing a 400 x 1200 image under the defaults. */
  function TallLayout(): Layout { Layout(400.0, 1200.0, 400.0, 800.0) }

  /** Pinch to scale 3 about the centre and release: the scale settles at 3,
      where the bounds are 400 and 1400, and the translation, already in
      bounds, stays where it was. */
  method PinchReleaseScenario() returns (c: ZoomController)
    ensures c.Valid() && c.AtRest()
    ensures c.scale.value == 3.0 && c.layout.MaxTranslate(3.0) == Bounds(400.0, 1400.0)
    ensures c.translateX.value == 0.0 && c.translateY.value == 200.0
  {
    Geometry.TallImageExample();
    Types.DefaultsAreSensible();
    c := new ZoomController(TallLayout(), DefaultConfig);
    c.PinchBegin();
    c.PinchUpdate(3.0);
    c.PinchEnd();
    c.Settle(0.0, 0.0);
  }

  /** Double tap 100 right of and 50 below the centre from the initial pose:
      the zoom goes to 2.5 and the translation targets are -150 and 425,
      both within the bounds 300 and 1100 at that scale. */
  method DoubleTapOffCentreScenario() returns (c: ZoomController)
    ensures c.Valid() && c.SettlesInEnvelope()
    ensures c.scale.motion == Spring(2.5)
    ensures c.translateX.motion == Spring(-150.0) && c.translateY.motion == Spring(425.0)
  {
    Geometry.TallImageExample();
    Types.DefaultsAreSensible();
    c := new ZoomController(TallLayout(), DefaultConfig);
    c.DoubleTap(300.0, 450.0);
  }

  /** A double tap at scale 1 zooms rather than resets: from the initial
      pose the scale heads for `doubleTapScale`, not back to 1. */
  method DoubleTapFromRestZooms() returns (c: ZoomController)
    ensures c.Valid() && c.scale.motion == Spring(DefaultConfig.doubleTapScale)
    ensures c.scale.motion != Spring(1.0)
  {
    Geometry.TallImageExample();
    c := new ZoomController(TallLayout(), DefaultConfig);
    c.DoubleTap(200.0, 400.0);
  }

  /** A pan that interrupts a running fling starts from where the image is
      on screen: the baseline is the frame's position (150), although the
      fling may come to rest anywhere within [-300, 300]. */
  method FlingInterruptScenario() returns (c: ZoomController)
    ensures c.Valid()
    ensures c.panSavedTX == 150.0 && c.translateX == Set(150.0)
  {
    Geometry.TallImageExample();
    c := new ZoomController(TallLayout(), DefaultConfig);
    c.DoubleTap(200.0, 400.0);
    c.Settle(0.0, 0.0);
    c.PanBegin();
    c.PanUpdate(120.0, 0.0);
    c.PanEnd(900.0, 0.0);
    assert c.translateX.motion == Decay(900.0, -300.0, 300.0);
    c.Frame(2.5, 150.0, 200.0);
    c.PanBegin();
  }

  /** The pinch finger lifts first while the pinch has overshot to 5.7: the
      scale springs to 5 and the translation to 800, but the pan that ends
      right after clamps its fling with the bounds at the live scale 5.7
      (940), so the image can come to rest 900 across while the bound at
      scale 5 is 800. */
  method LiftPinchFirstScenario() returns (c: ZoomController)
    ensures c.Valid() && !c.SettlesInEnvelope()
    ensures c.scale.motion == Spring(5.0) && c.translateX.motion.Decay?
    ensures c.translateX.motion.lo == -940.0 && c.translateX.motion.hi == 940.0
    ensures c.layout.MaxTranslate(5.0).maxX == 800.0
  {
    c := LiftPinchFirstSetup();
    c.PanEnd(0.0, 0.0);
  }

  /** The same gesture with the fling clamped at the scale's resting value:
      the fling interval is [-800, 800] and the state settles in the envelope. */
  method LiftPinchFirstCorrected() returns (c: ZoomController)
    ensures c.Valid() && c.SettlesInEnvelope()
    ensures c.translateX.motion.Decay?
    ensures c.translateX.motion.lo == -800.0 && c.translateX.motion.hi == 800.0
  {
    c := LiftPinchFirstSetup();
    c.PanEndAtRestScale(0.0, 0.0);
  }

  /** Pinch and pan together: the pinch overshoots to 5.7, the drag moves the
      image 900 across (within the bound 940 at 5.7), then the pinch ends. */
  method LiftPinchFirstSetup() returns (c: ZoomController)
    ensures fresh(c) && c.Valid() && c.layout == TallLayout() && c.cfg == DefaultConfig
    ensures c.scale == SpringTo(Set(5.7), 5.0) && c.pinchSavedScale == 5.0
    ensures c.translateX == SpringTo(Set(900.0), 800.0)
    ensures c.translateY == SpringTo(Set(200.0), 200.0)
  {
    Geometry.TallImageExample();
    Types.DefaultsAreSensible();
    c := new ZoomController(TallLayout(), DefaultConfig);
    c.PinchBegin();
    c.PanBegin();
    c.PinchUpdate(7.5);
    assert c.scale.value == 5.7;
    assert c.layout.MaxTranslate(5.7) == Bounds(940.0, 3020.0);
    c.PanUpdate(900.0, 0.0);
    c.PinchEnd();
    assert c.layout.MaxTranslate(5.0) == Bounds(800.0, 2600.0);
  }
}
