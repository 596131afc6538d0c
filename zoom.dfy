/** The zoom/resolution controller of the image viewer: a continuous scale layered
    over a discrete resolution level. Button presses step the level; a wheel tick
    moves the scale and, at thresholds, promotes or demotes the level. Every
    transition computes a new state from the old one, so each is a function. */
module Zoom {

  /** Hard bounds of the scale, the mid-point it is reset to on a level change,
      and the scale below which a tick demotes the level. */
  const MinScale: real := 0.4
  const MaxScale: real := 4.0
  const ResetScale: real := 2.0
  const DemoteBelow: real := 1.0

  /** The viewer's configuration inputs: the inclusive resolution bounds and the
      scale delta of one wheel tick. */
  datatype Config = Config(minResolution: int, maxResolution: int, scrollOffset: real)

  predicate ValidConfig(c: Config)
  {
    0 <= c.minResolution <= c.maxResolution && 0.0 < c.scrollOffset
  }

  datatype ZoomState = ZoomState(scale: real, resolution: int)

  predicate InBounds(c: Config, z: ZoomState)
  {
    c.minResolution <= z.resolution <= c.maxResolution && MinScale <= z.scale <= MaxScale
  }

  /** The state the controller starts in: mid scale at the coarsest level. */
  function Initial(c: Config): (z: ZoomState)
    ensures z.resolution == c.minResolution && z.scale == ResetScale
    ensures ValidConfig(c) ==> InBounds(c, z)
  {
    ZoomState(ResetScale, c.minResolution)
  }

  function Min(a: real, b: real): real { if a <= b then a else b }
  function Max(a: real, b: real): real { if a >= b then a else b }

  /** The "+" button: one level finer unless already at the finest level. */
  function Increase(c: Config, z: ZoomState): (r: ZoomState)
    ensures r.scale == z.scale
    ensures z.resolution <= r.resolution <= z.resolution + 1
    ensures r.resolution > z.resolution <==> z.resolution < c.maxResolution
  {
    z.(resolution := if z.resolution < c.maxResolution then z.resolution + 1 else z.resolution)
  }

  /** The "-" button: one level coarser unless already at the coarsest level. */
  function Decrease(c: Config, z: ZoomState): (r: ZoomState)
    ensures r.scale == z.scale
    ensures z.resolution - 1 <= r.resolution <= z.resolution
    ensures r.resolution < z.resolution <==> z.resolution > c.minResolution
  {
    z.(resolution := if z.resolution > c.minResolution then z.resolution - 1 else z.resolution)
  }

  /** A wheel tick with negative deltaY zooms in, any other deltaY (zero included)
      zooms out; the new scale is clamped to the hard bounds. */
  function TickScale(c: Config, scale: real, deltaY: real): (s: real)
    ensures deltaY < 0.0 ==> s <= MaxScale && s <= scale + c.scrollOffset &&
                             (s == MaxScale || s == scale + c.scrollOffset)
    ensures deltaY >= 0.0 ==> s >= MinScale && s >= scale - c.scrollOffset &&
                              (s == MinScale || s == scale - c.scrollOffset)
  {
    if deltaY < 0.0 then Min(MaxScale, scale + c.scrollOffset)
    else Max(MinScale, scale - c.scrollOffset)
  }

  /** A wheel tick: the clamped scale, then a promotion when the level is not the
      finest and the scale reached the upper bound, else a demotion when the level
      is not the coarsest and the scale fell below 1.0. */
  function Scroll(c: Config, z: ZoomState, deltaY: real): (r: ZoomState)
    ensures z.resolution - 1 <= r.resolution <= z.resolution + 1
    ensures r.resolution != z.resolution ==> r.scale == ResetScale
    ensures r.resolution == z.resolution ==> r.scale == TickScale(c, z.scale, deltaY)
    ensures r.resolution == z.resolution + 1 <==>
              z.resolution != c.maxResolution && TickScale(c, z.scale, deltaY) >= MaxScale
    ensures r.resolution == z.resolution - 1 <==>
              !(z.resolution != c.maxResolution && TickScale(c, z.scale, deltaY) >= MaxScale) &&
              z.resolution != c.minResolution && TickScale(c, z.scale, deltaY) < DemoteBelow
  {
    var s := TickScale(c, z.scale, deltaY);
    if z.resolution != c.maxResolution && s >= MaxScale then ZoomState(ResetScale, z.resolution + 1)
    else if z.resolution != c.minResolution && s < DemoteBelow then ZoomState(ResetScale, z.resolution - 1)
    else ZoomState(s, z.resolution)
  }

  /** The inputs the controller consumes. */
  datatype ZoomEvent = IncreaseClicked | DecreaseClicked | Wheel(deltaY: real)

  function Step(c: Config, z: ZoomState, e: ZoomEvent): ZoomState
  {
    match e
    case IncreaseClicked => Increase(c, z)
    case DecreaseClicked => Decrease(c, z)
    case Wheel(d) => Scroll(c, z, d)
  }

  function Run(c: Config, z: ZoomState, es: seq<ZoomEvent>): ZoomState
    decreases |es|
  {
    if es == [] then z else Run(c, Step(c, z, es[0]), es[1..])
  }

  /** n identical wheel ticks. */
  function Ticks(c: Config, z: ZoomState, deltaY: real, n: nat): ZoomState
  {
    if n == 0 then z else Scroll(c, Ticks(c, z, deltaY, n - 1), deltaY)
  }

  /** The "-" button undoes the "+" button wherever "+" was not a no-op, and the
      other way round. */
  lemma IncreaseDecreaseInverse(c: Config, z: ZoomState)
    requires ValidConfig(c) && InBounds(c, z)
    ensures z.resolution < c.maxResolution ==> Decrease(c, Increase(c, z)) == z
    ensures z.resolution > c.minResolution ==> Increase(c, Decrease(c, z)) == z
  {
  }

  /** Both buttons keep the state within bounds. */
  lemma ButtonsPreserveBounds(c: Config, z: ZoomState)
    requires InBounds(c, z)
    ensures InBounds(c, Increase(c, z)) && InBounds(c, Decrease(c, z))
  {
  }

  /** Every tick leaves the scale in [0.4, 4.0] and the level in bounds. */
  lemma ScrollPreservesBounds(c: Config, z: ZoomState, deltaY: real)
    requires ValidConfig(c) && InBounds(c, z)
    ensures InBounds(c, Scroll(c, z, deltaY))
  {
  }

  /** Scroll's transition rule read for in-bounds states, where "not the finest
      level" means below the maximum and "not the coarsest" means above the
      minimum: a promotion lands on level + 1 at mid scale, a demotion on
      level - 1 at mid scale. */
  lemma ScrollTransitionsInBounds(c: Config, z: ZoomState, deltaY: real)
    requires ValidConfig(c) && InBounds(c, z)
    ensures Scroll(c, z, deltaY).resolution > z.resolution <==>
              z.resolution < c.maxResolution && TickScale(c, z.scale, deltaY) >= MaxScale
    ensures Scroll(c, z, deltaY).resolution > z.resolution ==>
              Scroll(c, z, deltaY) == ZoomState(ResetScale, z.resolution + 1)
    ensures Scroll(c, z, deltaY).resolution < z.resolution <==>
              !(z.resolution < c.maxResolution && TickScale(c, z.scale, deltaY) >= MaxScale) &&
              z.resolution > c.minResolution && TickScale(c, z.scale, deltaY) < DemoteBelow
    ensures Scroll(c, z, deltaY).resolution < z.resolution ==>
              Scroll(c, z, deltaY) == ZoomState(ResetScale, z.resolution - 1)
  {
  }

  /** Any sequence of button presses and wheel ticks keeps the level within
      [minResolution, maxResolution] and the scale within [0.4, 4.0]. */
  lemma {:induction false} RunPreservesBounds(c: Config, z: ZoomState, es: seq<ZoomEvent>)
    requires ValidConfig(c) && InBounds(c, z)
    ensures InBounds(c, Run(c, z, es))
    decreases |es|
  {
    if es != [] {
      var z' := Step(c, z, es[0]);
      match es[0] {
        case IncreaseClicked => ButtonsPreserveBounds(c, z);
        case DecreaseClicked => ButtonsPreserveBounds(c, z);
        case Wheel(d) => ScrollPreservesBounds(c, z, d);
      }
      RunPreservesBounds(c, z', es[1..]);
    }
  }

  /** Every state reachable from the initial state is within bounds. */
  lemma ReachableInBounds(c: Config, es: seq<ZoomEvent>)
    requires ValidConfig(c)
    ensures InBounds(c, Run(c, Initial(c), es))
  {
    RunPreservesBounds(c, Initial(c), es);
  }

  /** The distance n ticks move the scale when nothing clamps it. */
  function Travel(c: Config, n: nat): (d: real)
    ensures d == n as real * c.scrollOffset
    ensures 0.0 <= c.scrollOffset && 0 < n ==> c.scrollOffset <= d
  {
    if n == 0 then 0.0 else Travel(c, n - 1) + c.scrollOffset
  }

  /** Away from the thresholds, ticks only move the scale: n zoom-in ticks whose
      first tick reaches 1.0 and that stay below 4.0 raise it by exactly n offsets, and
      n zoom-out ticks that stay at or above 1.0 lower it by exactly n offsets,
      on any level, which never changes. */
  lemma {:induction false} UnclampedTicks(c: Config, z: ZoomState, deltaY: real, n: nat)
    requires ValidConfig(c) && InBounds(c, z)
    requires deltaY < 0.0 ==> (DemoteBelow <= z.scale + c.scrollOffset || n == 0) &&
                              z.scale + Travel(c, n) < MaxScale
    requires deltaY >= 0.0 ==> DemoteBelow <= z.scale - Travel(c, n)
    ensures deltaY < 0.0 ==> Ticks(c, z, deltaY, n) == ZoomState(z.scale + Travel(c, n), z.resolution)
    ensures deltaY >= 0.0 ==> Ticks(c, z, deltaY, n) == ZoomState(z.scale - Travel(c, n), z.resolution)
  {
    if n > 0 {
      UnclampedTicks(c, z, deltaY, n - 1);
    }
  }

  /** At the finest level, n zoom-in ticks saturate the scale at 4.0 and never
      change the level, provided the first tick already reaches 1.0 (otherwise,
      below the coarsest level, the first tick would demote). */
  lemma {:induction false} ZoomInSaturatesAtMax(c: Config, z: ZoomState, deltaY: real, n: nat)
    requires ValidConfig(c) && InBounds(c, z)
    requires z.resolution == c.maxResolution && deltaY < 0.0
    requires DemoteBelow <= z.scale + c.scrollOffset || c.minResolution == c.maxResolution
    ensures Ticks(c, z, deltaY, n) == ZoomState(Min(MaxScale, z.scale + Travel(c, n)), c.maxResolution)
  {
    if n > 0 {
      ZoomInSaturatesAtMax(c, z, deltaY, n - 1);
      assert c.scrollOffset <= Travel(c, n);
    }
  }

  /** At the coarsest level, n zoom-out ticks saturate the scale at 0.4 and never
      change the level. */
  lemma {:induction false} ZoomOutSaturatesAtMin(c: Config, z: ZoomState, deltaY: real, n: nat)
    requires ValidConfig(c) && InBounds(c, z)
    requires z.resolution == c.minResolution && deltaY >= 0.0
    ensures Ticks(c, z, deltaY, n) == ZoomState(Max(MinScale, z.scale - Travel(c, n)), c.minResolution)
  {
    if n > 0 {
      ZoomOutSaturatesAtMin(c, z, deltaY, n - 1);
    }
  }

  /** Five zoom-in ticks of scale 1.0 each from the initial state with levels
      [0, 3]: 3.0 at level 0, promotion to level 1 at 2.0, 3.0, promotion to
      level 2 at 2.0, and finally 3.0 at level 2. */
  lemma FiveZoomInTicks()
    ensures Ticks(Config(0, 3, 1.0), Initial(Config(0, 3, 1.0)), -1.0, 2) == ZoomState(2.0, 1)
    ensures Ticks(Config(0, 3, 1.0), Initial(Config(0, 3, 1.0)), -1.0, 5) == ZoomState(3.0, 2)
  {
  }

  /** A "+" press keeps a low scale, so a following zoom-in tick whose new scale is
      still below 1.0 demotes the level: with offset 0.5, four zoom-out ticks at
      level 0 reach 0.4, "+" gives level 1 at 0.4, and a zoom-in tick (0.9) drops
      back to level 0. */
  lemma ZoomInTickCanDemote()
    ensures Run(Config(0, 3, 0.5), Initial(Config(0, 3, 0.5)),
                [Wheel(1.0), Wheel(1.0), Wheel(1.0), Wheel(1.0), IncreaseClicked])
            == ZoomState(0.4, 1)
    ensures Scroll(Config(0, 3, 0.5), ZoomState(0.4, 1), -1.0) == ZoomState(ResetScale, 0)
  {
  }
}
