/** An abstract animated value.

    The animation engine itself is not modelled: a value is a current
    position plus the motion it is on. Reading the value always yields the
    current position, also right after an animation was assigned; a spring
    comes to rest at its target; a decay (fling) comes to rest at some point
    of its clamp interval chosen by the engine; cancelling freezes the
    current position. */
module Animation {

  datatype Motion =
    | Still
    | Spring(target: real)
    | Decay(velocity: real, lo: real, hi: real)

  datatype Cell = Cell(value: real, motion: Motion)

  /** A plain `.value = v` assignment: it replaces any running animation. */
  function Set(v: real): (r: Cell)
    ensures r.value == v && r.motion.Still?
    ensures forall w :: MayLandAt(r, w) && Land(r, w) == v
  {
    Cell(v, Still)
  }

  /** `cancelAnimation`: the value stays where it currently is. */
  function Cancel(c: Cell): (r: Cell)
    ensures r.value == c.value && r.motion.Still?
    ensures forall w :: MayLandAt(r, w) && Land(r, w) == c.value
  {
    Cell(c.value, Still)
  }

  /** `.value = withSpring(t)`: the motion changes, the position does not yet. */
  function SpringTo(c: Cell, t: real): (r: Cell)
    ensures r.value == c.value && r.motion.Spring?
    ensures forall w :: MayLandAt(r, w) && Land(r, w) == t
  {
    Cell(c.value, Spring(t))
  }

  /** `.value = withDecay({velocity, clamp: [lo, hi]})`. */
  function DecayIn(c: Cell, velocity: real, lo: real, hi: real): (r: Cell)
    ensures r.value == c.value && r.motion.Decay?
    ensures lo <= hi ==> WellFormed(r)
    ensures forall w :: MayLandAt(r, w) <==> lo <= w <= hi
    ensures forall w :: MayLandAt(r, w) ==> Land(r, w) == w
  {
    Cell(c.value, Decay(velocity, lo, hi))
  }

  /** A decay's clamp interval is never empty. */
  predicate WellFormed(c: Cell) {
    c.motion.Decay? ==> c.motion.lo <= c.motion.hi
  }

  /** `v` is a position at which the engine may bring `c` to rest. */
  predicate MayLandAt(c: Cell, v: real) {
    c.motion.Decay? ==> c.motion.lo <= v <= c.motion.hi
  }

  /** Where `c` comes to rest, given the engine's choice `v` for a decay. */
  function Land(c: Cell, v: real): real
    requires MayLandAt(c, v)
  {
    match c.motion
    case Still => c.value
    case Spring(t) => t
    case Decay(_, _, _) => v
  }

  /** Where a value that is not flinging comes to rest: `Land` needs no
      choice from the engine then. */
  function Target(c: Cell): (t: real)
    requires !c.motion.Decay?
    ensures forall v :: Land(c, v) == t
  {
    Land(c, c.value)
  }

  /** Every position `c` may come to rest at lies in [lo, hi]. */
  predicate SettlesWithin(c: Cell, lo: real, hi: real) {
    match c.motion
    case Still => lo <= c.value <= hi
    case Spring(t) => lo <= t <= hi
    case Decay(_, a, b) => lo <= a && b <= hi
  }

  /** `SettlesWithin` means exactly that every admissible resting position
      lies in the interval. */
  lemma SettlesWithinIff(c: Cell, lo: real, hi: real)
    requires WellFormed(c)
    ensures SettlesWithin(c, lo, hi) <==> forall v :: MayLandAt(c, v) ==> lo <= Land(c, v) <= hi
  {
    if forall v :: MayLandAt(c, v) ==> lo <= Land(c, v) <= hi {
      if c.motion.Decay? {
        assert lo <= Land(c, c.motion.lo) && Land(c, c.motion.hi) <= hi;
      } else {
        assert lo <= Land(c, c.value) <= hi;
      }
    }
  }

  /** One frame of the engine: an animating value moves to `v`, a still one
      does not move. */
  function Advance(c: Cell, v: real): Cell
  {
    if c.motion.Still? then c else Cell(v, c.motion)
  }
}
