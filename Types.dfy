/** Configuration records, their defaults, the tuning constants, and the
    field-by-field merge of a caller's partial configuration with the defaults. */
module Types {

  datatype Option<+T> = None | Some(value: T) {
    /** The `??` operator: the value when present, otherwise the fallback. */
    function GetOr(fallback: T): (r: T)
      ensures Some? ==> r == value
      ensures None? ==> r == fallback
    {
      match this
      case Some(v) => v
      case None => fallback
    }
  }

  /** Spring parameters handed to the animation engine. */
  datatype SpringConfig = SpringConfig(damping: real, stiffness: real, mass: real)

  /** A complete configuration, every field resolved. */
  datatype Config = Config(maxScale: real, doubleTapScale: real, spring: SpringConfig, decelerationRate: real)

  /** The caller's spring options: every field may be absent. */
  datatype SpringOptions = SpringOptions(damping: Option<real>, stiffness: Option<real>, mass: Option<real>)

  /** The caller's configuration: every field may be absent. */
  datatype ConfigOptions = ConfigOptions(
    maxScale: Option<real>,
    doubleTapScale: Option<real>,
    spring: Option<SpringOptions>,
    decelerationRate: Option<real>)

  const DefaultConfig: Config :=
    Config(5.0, 2.5, SpringConfig(18.0, 230.0, 0.3), 0.998)

  /** Share of an overshoot that a live drag passes through beyond a bound. */
  const RubberBandFactor: real := 0.38

  /** Elasticity of a fling when it meets its clamp interval. */
  const DecayRubberBandFactor: real := 0.55

  const NoSpringOptions: SpringOptions := SpringOptions(None, None, None)
  const NoOptions: ConfigOptions := ConfigOptions(None, None, None, None)

  /** A configuration the gesture model is designed for: the zoom cap is at
      least the resting scale, the double-tap target is a legal rest scale,
      the spring is physical and the deceleration rate is a fraction. */
  predicate Sensible(c: Config) {
    1.0 <= c.maxScale &&
    1.0 <= c.doubleTapScale <= c.maxScale &&
    c.spring.damping > 0.0 && c.spring.stiffness > 0.0 && c.spring.mass > 0.0 &&
    0.0 < c.decelerationRate < 1.0
  }

  /** Every option the caller gives wins; every option left out, at either
      nesting level, falls back to its default. */
  function Merge(config: Option<ConfigOptions>): (c: Config)
    ensures config.Some? && config.value.maxScale.Some? ==> c.maxScale == config.value.maxScale.value
    ensures (config.None? || config.value.maxScale.None?) ==> c.maxScale == DefaultConfig.maxScale
    ensures config.Some? && config.value.doubleTapScale.Some? ==> c.doubleTapScale == config.value.doubleTapScale.value
    ensures (config.None? || config.value.doubleTapScale.None?) ==> c.doubleTapScale == DefaultConfig.doubleTapScale
    ensures config.Some? && config.value.decelerationRate.Some? ==> c.decelerationRate == config.value.decelerationRate.value
    ensures (config.None? || config.value.decelerationRate.None?) ==> c.decelerationRate == DefaultConfig.decelerationRate
    ensures config.Some? && config.value.spring.Some? && config.value.spring.value.damping.Some? ==>
              c.spring.damping == config.value.spring.value.damping.value
    ensures (config.None? || config.value.spring.None? || config.value.spring.value.damping.None?) ==>
              c.spring.damping == DefaultConfig.spring.damping
    ensures config.Some? && config.value.spring.Some? && config.value.spring.value.stiffness.Some? ==>
              c.spring.stiffness == config.value.spring.value.stiffness.value
    ensures (config.None? || config.value.spring.None? || config.value.spring.value.stiffness.None?) ==>
              c.spring.stiffness == DefaultConfig.spring.stiffness
    ensures config.Some? && config.value.spring.Some? && config.value.spring.value.mass.Some? ==>
              c.spring.mass == config.value.spring.value.mass.value
    ensures (config.None? || config.value.spring.None? || config.value.spring.value.mass.None?) ==>
              c.spring.mass == DefaultConfig.spring.mass
  {
    var o := config.GetOr(NoOptions);
    var s := o.spring.GetOr(NoSpringOptions);
    Config(
      o.maxScale.GetOr(DefaultConfig.maxScale),
      o.doubleTapScale.GetOr(DefaultConfig.doubleTapScale),
      SpringConfig(
        s.damping.GetOr(DefaultConfig.spring.damping),
        s.stiffness.GetOr(DefaultConfig.spring.stiffness),
        s.mass.GetOr(DefaultConfig.spring.mass)),
      o.decelerationRate.GetOr(DefaultConfig.decelerationRate))
  }

  /** Every field of `c` given explicitly. */
  function Given(c: Config): ConfigOptions {
    ConfigOptions(
      Some(c.maxScale), Some(c.doubleTapScale),
      Some(SpringOptions(Some(c.spring.damping), Some(c.spring.stiffness), Some(c.spring.mass))),
      Some(c.decelerationRate))
  }

  /** No configuration, or one with every field absent, yields the defaults. */
  lemma MergeAbsentIsDefault()
    ensures Merge(None) == DefaultConfig
    ensures Merge(Some(NoOptions)) == DefaultConfig
    ensures Merge(Some(ConfigOptions(None, None, Some(NoSpringOptions), None))) == DefaultConfig
  {
  }

  /** A fully specified configuration passes through the merge unchanged,
      so merging an already merged configuration changes nothing. */
  lemma MergeGivenRoundTrip(c: Config)
    ensures Merge(Some(Given(c))) == c
  {
  }

  /** Each resolved field depends on that option alone: changing one option
      leaves every other field of the merge as it was. */
  lemma MergeFieldwise(o: ConfigOptions, m: real)
    ensures Merge(Some(o.(maxScale := Some(m)))) == Merge(Some(o)).(maxScale := m)
    ensures Merge(Some(o.(doubleTapScale := Some(m)))) == Merge(Some(o)).(doubleTapScale := m)
    ensures Merge(Some(o.(decelerationRate := Some(m)))) == Merge(Some(o)).(decelerationRate := m)
    ensures var s := o.spring.GetOr(NoSpringOptions);
            var before := Merge(Some(o));
            Merge(Some(o.(spring := Some(s.(damping := Some(m)))))) ==
              before.(spring := before.spring.(damping := m))
    ensures var s := o.spring.GetOr(NoSpringOptions);
            var before := Merge(Some(o));
            Merge(Some(o.(spring := Some(s.(stiffness := Some(m)))))) ==
              before.(spring := before.spring.(stiffness := m))
    ensures var s := o.spring.GetOr(NoSpringOptions);
            var before := Merge(Some(o));
            Merge(Some(o.(spring := Some(s.(mass := Some(m)))))) ==
              before.(spring := before.spring.(mass := m))
  {
  }

  /** The defaults and tuning constants as documented, and the ranges they
      are documented or designed to lie in. */
  lemma DefaultsAreSensible()
    ensures DefaultConfig.maxScale == 5.0 && DefaultConfig.doubleTapScale == 2.5
    ensures DefaultConfig.spring == SpringConfig(18.0, 230.0, 0.3)
    ensures DefaultConfig.decelerationRate == 0.998
    ensures Sensible(DefaultConfig)
    ensures 0.0 < RubberBandFactor < 1.0
    ensures 0.0 <= DecayRubberBandFactor <= 1.0
  {
  }
}
