# Zoomable image gesture controller, in Dafny

A model of the gesture-to-transform controller of `ZoomableImageContent`, a
pinch / pan / double-tap zoom component for React Native built on Reanimated.
The controller owns six shared values: `scale`, `pinchSavedScale`,
`translateX`, `translateY`, `panSavedTX` and `panSavedTY`. Pinch, pan and
double-tap callbacks update them in place and hand spring and decay (fling)
animations to the animation engine. The model proves what those updates
compute and that every "end" handler leaves a target state in the legal
envelope. The one exception, a pan ending while a scale spring still runs, is
the finding below.

Modules, one per concern of the source:

- `Types` (`src/types.ts`): the configuration records, `DEFAULT_CONFIG`, the
  two rubber-band factors, and the field-by-field merge of a caller's partial
  configuration with the defaults. In the source the merge is the `useMemo` in
  `ZoomableImage`. JavaScript's `??` is modelled by `Option.GetOr`: an absent
  field (`undefined` or `null`) falls back, and a present one wins.
- `RealMath`: `Math.max`, `Math.min` and the `max(lo, min(hi, v))` clamp the
  handlers use.
- `Geometry`: display size, initial vertical offset and `getMaxTranslate`,
  over `real`.
- `Resistance`: `rubberBand` and `rubberBandScale`.
- `Animation`: an abstract animated value. A value is a `Cell(value, motion)`,
  and its motion is `Still`, `Spring(target)` or `Decay(velocity, lo, hi)`.
  - Reading `.value` gives the current position, also right after an animation
    was assigned.
  - `withSpring(t)` comes to rest at `t`.
  - `withDecay` comes to rest somewhere in its clamp interval.
  - `cancelAnimation` freezes the current position.
- `Zoom`: `class ZoomController`.
  - It has the six values as fields, the layout and configuration as `const`s,
    and one method per gesture callback.
  - `Frame` (the engine moves running animations) and `Settle` (they come to
    rest) are the only other ways the state changes.
  - Every method keeps `Valid()`, so any interleaving of callbacks run one at a
    time keeps it too.
  - Scenario methods replay concrete gesture sequences on a 400x800 container
    showing a 400x1200 image.

A double tap at scale 1 zooms: the reset branch fires only when
`scale > 1.1` (src/ZoomableImage.tsx:199), so from rest the scale heads for
`doubleTapScale` (`Zoom.DoubleTapFromRestZooms`).

## Model

| member | source | states |
|---|---|---|
| `Types.Merge` | src/ZoomableImage.tsx:309-322 | each resolved field is the caller's option when given, else the default, at both nesting levels (`config?.spring?.x`) |
| `Types.MergeAbsentIsDefault` | src/ZoomableImage.tsx:309-322 | no configuration, or one with every field absent, yields exactly `DEFAULT_CONFIG` |
| `Types.MergeGivenRoundTrip` | src/ZoomableImage.tsx:309-322 | a fully specified configuration passes through the merge unchanged |
| `Types.MergeFieldwise` | src/ZoomableImage.tsx:311-319 | setting any one option (maxScale, doubleTapScale, decelerationRate, spring damping, stiffness or mass) changes only that field of the merged configuration |
| `Types.Option.GetOr` | src/ZoomableImage.tsx:311-319 | the `??` operator: a present value wins, an absent one yields the fallback |
| `Types.DefaultsAreSensible` | src/types.ts:96-113 | defaults 5, 2.5, spring {18, 230, 0.3}, 0.998; 1 <= doubleTapScale <= maxScale; deceleration in (0, 1); 0 < 0.38 < 1; 0.55 in [0, 1] |
| `RealMath.Clamp` | src/ZoomableImage.tsx:141 | the result lies in [lo, hi] and is `v` itself when `v` is already there |
| `RealMath.ClampIsNearest` | src/ZoomableImage.tsx:147-148 | the clamp is the point of the interval nearest to the input |
| `Geometry.Layout.DisplayWidth` | src/ZoomableImage.tsx:62 | the image is fitted to the container's width, which is positive for a valid layout |
| `Geometry.Layout.DisplayHeight` | src/ZoomableImage.tsx:60-63 | the fitted height is positive and keeps the image's aspect ratio against the container width |
| `Geometry.Layout.InitTranslateY` | src/ZoomableImage.tsx:65-73 | a short image stays centred (offset 0); a tall one is offset so its top edge meets the container's top edge; never negative |
| `Geometry.Layout.MaxTranslate` | src/ZoomableImage.tsx:93-99 | both bounds are non-negative; on an axis where the scaled image overflows, the bound puts the image edge on the container edge; otherwise it is 0 |
| `Geometry.AxisBound` | src/ZoomableImage.tsx:96-97 | one axis of the bound: non-negative, puts the image edge on the container edge when the scaled extent overflows, 0 when it fits |
| `Geometry.AxisBoundMonotone` | src/ZoomableImage.tsx:96-97 | one axis of the bound is non-decreasing in the scale |
| `Geometry.MaxTranslateMonotone` | src/ZoomableImage.tsx:93-99 | both bounds are non-decreasing in the scale |
| `Geometry.InitialPoseInBounds` | src/ZoomableImage.tsx:70-99 | at scale 1 the horizontal bound is 0 and the vertical bound equals the initial offset, so the initial pose is in bounds |
| `Geometry.InBoundsCoversContainer` | src/ZoomableImage.tsx:93-99 | a translation within the bounds leaves an overflowing image covering the container on that axis |
| `Geometry.TallImageExample` | src/ZoomableImage.tsx:60-99 | container 400x800 with image 400x1200: height 1200, offset 200, bounds (400, 1400) at scale 3 and (300, 1100) at 2.5 |
| `Resistance.RubberBand` | src/ZoomableImage.tsx:108-113 | identity on [lo, hi]; below `lo` strictly between `v` and `lo`; above `hi` strictly between `hi` and `v` |
| `Resistance.RubberBandMonotone` | src/ZoomableImage.tsx:108-113 | non-decreasing in `v` |
| `Resistance.RubberBandStep` | src/ZoomableImage.tsx:108-113 | for v1 <= v2 the output rises by at most v2 - v1 |
| `Resistance.RubberBandContinuous` | src/ZoomableImage.tsx:108-113 | the output moves no further than the input (1-Lipschitz), so there is no jump at `lo` or `hi` |
| `Resistance.RubberBandScale` | src/ZoomableImage.tsx:122-127 | identity on [1, maxScale]; below 1 in (raw, 1); above the cap in (maxScale, raw); positive for raw >= 0 |
| `Resistance.RubberBandScaleStep` | src/ZoomableImage.tsx:122-127 | for raw1 <= raw2 the output rises by between 0 and raw2 - raw1 |
| `Resistance.RubberBandScaleMonotone` | src/ZoomableImage.tsx:122-127 | non-decreasing in the raw scale |
| `Resistance.RubberBandScaleContinuous` | src/ZoomableImage.tsx:122-127 | 1-Lipschitz, so continuous at 1 and at `maxScale` |
| `Animation.Set` | src/ZoomableImage.tsx:137 | a plain assignment puts the value at `v`, with nothing running, so it rests at `v` |
| `Animation.Cancel` | src/ZoomableImage.tsx:160-161 | `cancelAnimation` keeps the current position and stops there: the value rests where it was |
| `Animation.SpringTo` | src/ZoomableImage.tsx:142 | `withSpring` starts from the current position and, whatever the engine does, comes to rest at the target (an abstraction of the spring's trajectory) |
| `Animation.DecayIn` | src/ZoomableImage.tsx:178-189 | `withDecay` with a clamp starts from the current position and may come to rest exactly at the points of [lo, hi] (the velocity and deceleration only choose which) |
| `Animation.Target` | src/ZoomableImage.tsx:142 | a still or springing value comes to rest at one position whatever the engine does |
| `Animation.SettlesWithinIff` | src/ZoomableImage.tsx:178-189 | `SettlesWithin(c, lo, hi)` holds exactly when every resting position the engine may choose lies in [lo, hi] |
| `Zoom.FocusTranslate` | src/ZoomableImage.tsx:209-218 | the image point under the tap before the zoom is the one under the tap after it |
| `Zoom.FocusTranslateUnique` | src/ZoomableImage.tsx:209-218 | any translation that keeps the tapped image point fixed equals the focus formula |
| `Zoom.CentreTapKeepsCentre` | src/ZoomableImage.tsx:214-217 | a tap at the centre of an untranslated image gives translation 0 |
| `Zoom.ZoomController.constructor` | src/ZoomableImage.tsx:76-84 | fresh state: scale 1, translation (0, initial offset), baselines equal to the values, at rest when maxScale >= 1 |
| `Zoom.ZoomController.PinchBegin` | src/ZoomableImage.tsx:131-134 | the scale animation is cancelled and the baseline is the current scale; translation untouched |
| `Zoom.ZoomController.PinchUpdate` | src/ZoomableImage.tsx:135-138 | scale = rubberBandScale(baseline x factor); translation and all baselines unchanged |
| `Zoom.ZoomController.PinchEnd` | src/ZoomableImage.tsx:139-154 | scale springs to clamp(scale, 1, maxScale); each translation springs to its current value clamped into the bounds at that target; the three baselines equal the targets; the result settles in the envelope |
| `Zoom.ZoomController.PanBegin` | src/ZoomableImage.tsx:158-164 | both translate animations are cancelled; the baselines are the current (frozen) values, not any target |
| `Zoom.ZoomController.PanUpdate` | src/ZoomableImage.tsx:165-170 | translation = rubberBand(baseline + drag, -max, max) with bounds at the live scale; scale and baselines unchanged |
| `Zoom.ZoomController.PanEnd` | src/ZoomableImage.tsx:171-192 | each axis flings with its velocity, clamped to the bounds at the live scale; the baselines are the current positions; settles in the envelope when the scale is still and legal |
| `Zoom.ZoomController.PanEndAtRestScale` | src/ZoomableImage.tsx:171-192 | the corrected pan end: the fling is clamped at the scale's resting value, so the state settles in the envelope whenever that scale is legal |
| `Zoom.ZoomController.DoubleTap` | src/ZoomableImage.tsx:198-231 | above 1.1: spring to (1, 0, initial offset) and baselines match; otherwise spring to `doubleTapScale` and the focus-preserving translation clamped to the bounds there; each branch settles in the envelope |
| `Zoom.ZoomController.Frame` | src/ZoomableImage.tsx:178-189 | running animations move, still values and baselines do not |
| `Zoom.ZoomController.Settle` | src/ZoomableImage.tsx:142-150 | every animation comes to rest at its target or an admissible landing point; a state that settles in the envelope is then at rest |
| `Zoom.PinchReleaseScenario` | src/ZoomableImage.tsx:131-154 | pinch to 3 about the centre and release on the tall layout: at rest at scale 3 with bounds (400, 1400), translation unchanged at (0, 200) |
| `Zoom.DoubleTapOffCentreScenario` | src/ZoomableImage.tsx:214-229 | a tap at (100, 50) from the centre from the initial pose targets scale 2.5 and translation (-150, 425), inside the envelope |
| `Zoom.DoubleTapFromRestZooms` | src/ZoomableImage.tsx:199 | from scale 1 the zoom branch runs, not the reset |
| `Zoom.FlingInterruptScenario` | src/ZoomableImage.tsx:158-192 | a pan that interrupts a running fling takes its baseline from the fling's current frame position |
| `Zoom.LiftPinchFirstSetup` | src/ZoomableImage.tsx:131-170 | simultaneous pinch (overshoot to 5.7) and drag (to 900), then pinch end: springs towards scale 5 and translation 800 |
| `Zoom.LiftPinchFirstScenario` | src/ZoomableImage.tsx:171-192 | the pan ending next clamps its fling to [-940, 940] while the scale rests at 5, where the bound is 800: the state does not settle in the envelope |
| `Zoom.LiftPinchFirstCorrected` | src/ZoomableImage.tsx:171-192 | with the corrected pan end the fling is clamped to [-800, 800] and the state settles in the envelope |

## Findings

| source | as written | input that shows it | evidently intended | confidence | as-written member | corrected member |
|---|---|---|---|---|---|---|
| src/ZoomableImage.tsx:172 | pan end clamps its fling with `getMaxTranslate(scale.value)`, the live scale, even while a scale spring towards a smaller target runs | container 400x800, image 400x1200: pinch overshoots to 5.7, drag to 900, the pinch finger lifts first (scale springs to 5, bound 800), then the pan is released with velocity 0: the fling clamp is [-940, 940] and the image can rest at 900 at scale 5 | the translation comes to rest within the bounds at the scale it comes to rest at (what pinch end's re-clamp at lines 145-150 is for) | medium, not executed | `Zoom.LiftPinchFirstScenario` | `Zoom.ZoomController.PanEndAtRestScale` |

`ZoomController` keeps both pan-end methods. `PanEnd` mirrors the source line
for line. `PanEndAtRestScale` clamps at `Target(scale)`, the value the scale
animation comes to rest at. The two agree whenever the scale is still.

## Left out

- Spring and decay physics: the spring integrator, the velocity decay, the
  boundary elasticity `DECAY_RUBBER_BAND_FACTOR` and `decelerationRate` are all
  left unmodelled. A fling records its velocity and clamp interval. Where it
  stops is a parameter of `Settle`, restricted to that interval. Positions
  during an animation are parameters of `Frame`.
- Zoom.ZoomController.Frame: assumes a running scale animation never passes
  through zero. The source's division `doubleTapScale / scale.value` relies on
  this.
- Gesture recognition and composition (`Gesture.Race`, `Gesture.Simultaneous`,
  `numberOfTaps(2)`, `maxDistance(10)`) are library behaviour. The model lets
  the callbacks run one at a time in any order.
- The outer `ZoomableImage` component is I/O and React lifecycle: size probing
  with `Image.getSize`, the `cancelled` flag, state and effects, logging, the
  loading placeholder, and the `key={uri}` remount. The remount becomes the
  constructor, which always builds fresh state. The container size, which the
  source takes from `useWindowDimensions`, is an input of `Layout`.
- Rendering is UI, so it is left out: `useAnimatedStyle`, the JSX tree and the
  style sheet.
- IEEE-754 arithmetic: all values are `real`. Positive dimensions, positive
  `maxScale` and `doubleTapScale`, and a non-negative pinch factor are
  preconditions. The source does not validate a caller's configuration.
- Zoom.ZoomController.DoubleTap: the zoom branch is proved to settle in the
  envelope only when `1 <= doubleTapScale <= maxScale`. For other caller
  configurations the source itself gives no such guarantee.
- Zoom.ZoomController.PanEnd: settling in the envelope is stated only for a
  still scale in [1, maxScale], because with a running scale spring the
  source's clamp does not keep it (see the finding).
- `vite.config.ts` is build configuration and is not part of this model.
