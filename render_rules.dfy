/**
 * The value-level rules the orbit chart draws with
 * (src/components/RadialOrbit.tsx): the dial ticks (lines 298-305), the
 * ring stroke and opacity fallbacks (lines 367-373 and 411-417), the
 * rotation of each orbit and its play state (lines 520-528), and the hover
 * scale of an item (lines 547-550). The drawing itself is not modelled.
 */
module OrbitRender {
  import opened OrbitTypes
  import opened OrbitHelpers
  import opened OrbitLayout

  // ---------------------------------------------------------------------------
  // Dial ticks
  // ---------------------------------------------------------------------------

  datatype DialTick = DialTick(index: nat, innerPos: Point, outerPos: Point, angle: real)

  /** The number of ticks on the dial. */
  const TICK_COUNT: nat := 12

  function TickAngle(i: nat): real
  {
    (i as real * PI * 2.0) / TICK_COUNT as real - PI / 2.0
  }

  /** Twelve ticks, each a short radial segment across the dial circle. */
  function DialTicks(sizes: Sizes, cos: real -> real, sin: real -> real): (ticks: seq<DialTick>)
    ensures |ticks| == TICK_COUNT
    ensures forall i :: 0 <= i < |ticks| ==> ticks[i].index == i
  {
    seq(TICK_COUNT, i requires 0 <= i < TICK_COUNT =>
      var angle := TickAngle(i);
      DialTick(i,
        PolarToCartesian(sizes.centerX, sizes.centerY, sizes.dialRadius - 10.0, angle, cos, sin),
        PolarToCartesian(sizes.centerX, sizes.centerY, sizes.dialRadius + 10.0, angle, cos, sin),
        angle))
  }

  /** The first tick points straight up (-π/2) and consecutive ticks are π/6 apart, so the twelve cover one turn. */
  lemma DialTickAngles(sizes: Sizes, cos: real -> real, sin: real -> real)
    ensures var ticks := DialTicks(sizes, cos, sin);
      && ticks[0].angle == -PI / 2.0
      && (forall i :: 0 <= i < TICK_COUNT - 1 ==> ticks[i + 1].angle == ticks[i].angle + PI / 6.0)
      && (forall i :: 0 <= i < TICK_COUNT ==> -PI / 2.0 <= ticks[i].angle < 3.0 * PI / 2.0)
  {
    var ticks := DialTicks(sizes, cos, sin);
    forall i | 0 <= i < TICK_COUNT
      ensures ticks[i].angle == i as real * (PI / 6.0) - PI / 2.0
      ensures -PI / 2.0 <= ticks[i].angle < 3.0 * PI / 2.0
    {
      assert (i as real) <= 11.0;
    }
  }

  /** Where cos and sin meet the Pythagorean identity, a tick's ends lie 10 units inside and outside the dial circle. */
  lemma DialTickOnCircles(sizes: Sizes, cos: real -> real, sin: real -> real, i: nat)
    requires i < TICK_COUNT
    requires cos(TickAngle(i)) * cos(TickAngle(i)) + sin(TickAngle(i)) * sin(TickAngle(i)) == 1.0
    ensures var t := DialTicks(sizes, cos, sin)[i];
      var cx, cy := sizes.centerX, sizes.centerY;
      && (t.innerPos.x - cx) * (t.innerPos.x - cx) + (t.innerPos.y - cy) * (t.innerPos.y - cy)
           == (sizes.dialRadius - 10.0) * (sizes.dialRadius - 10.0)
      && (t.outerPos.x - cx) * (t.outerPos.x - cx) + (t.outerPos.y - cy) * (t.outerPos.y - cy)
           == (sizes.dialRadius + 10.0) * (sizes.dialRadius + 10.0)
  {
    PolarOnCircle(sizes.centerX, sizes.centerY, sizes.dialRadius - 10.0, TickAngle(i), cos, sin);
    PolarOnCircle(sizes.centerX, sizes.centerY, sizes.dialRadius + 10.0, TickAngle(i), cos, sin);
  }

  // ---------------------------------------------------------------------------
  // Rings
  // ---------------------------------------------------------------------------

  /**
   * The `orbitPaths` prop: every field may be left out. `show` and
   * `strokeDasharray` are carried only for the prop's shape: whether rings are
   * drawn at all and their dash pattern are drawing details this model does not read.
   */
  datatype PathStyle = PathStyle(
    show: Option<bool>,
    strokeWidth: Option<real>,
    strokeDasharray: Option<string>,
    opacity: Option<real>,
    hoverStrokeWidth: Option<real>,
    hoverOpacity: Option<real>)

  /** The prop's value when the caller passes none. */
  const DEFAULT_PATHS: PathStyle := PathStyle(Some(true), Some(2.0), Some("5,5"), Some(0.7), Some(3.0), Some(0.9))

  /** `value ?? fallback`. */
  function OrElse(value: Option<real>, fallback: real): (r: real)
    ensures value.Some? ==> r == value.value
    ensures value.None? ==> r == fallback
  {
    if value.Some? then value.value else fallback
  }

  datatype RingStyle = RingStyle(strokeWidth: real, opacity: real)

  /** The stroke width and opacity of a ring, hovered or not. */
  function RingStyleOf(paths: PathStyle, hovered: bool): RingStyle
  {
    if hovered then
      RingStyle(OrElse(paths.hoverStrokeWidth, OrElse(paths.strokeWidth, 3.0)), OrElse(paths.hoverOpacity, OrElse(paths.opacity, 0.9)))
    else
      RingStyle(OrElse(paths.strokeWidth, 2.0), OrElse(paths.opacity, 0.7))
  }

  /**
   * The fallback chains: a hover value wins when given, otherwise the hovered
   * ring falls back to the idle value and only then to 3 and 0.9; the idle
   * ring uses its value or 2 and 0.7. So the default prop and an empty prop
   * draw alike, and a ring given only idle values does not change on hover.
   */
  lemma RingStyleFallbacks(paths: PathStyle)
    ensures RingStyleOf(DEFAULT_PATHS, true) == RingStyle(3.0, 0.9)
    ensures RingStyleOf(DEFAULT_PATHS, false) == RingStyle(2.0, 0.7)
    ensures var empty := PathStyle(None, None, None, None, None, None);
      RingStyleOf(empty, true) == RingStyleOf(DEFAULT_PATHS, true) && RingStyleOf(empty, false) == RingStyleOf(DEFAULT_PATHS, false)
    ensures paths.hoverStrokeWidth.Some? ==> RingStyleOf(paths, true).strokeWidth == paths.hoverStrokeWidth.value
    ensures paths.hoverOpacity.Some? ==> RingStyleOf(paths, true).opacity == paths.hoverOpacity.value
    ensures paths.strokeWidth.Some? && paths.opacity.Some? && paths.hoverStrokeWidth.None? && paths.hoverOpacity.None?
      ==> RingStyleOf(paths, true) == RingStyleOf(paths, false)
  {
  }

  /** One ring per group: hovered when its group is. Rings shared by a bucket: hovered when any of their groups is. */
  predicate RingHovered(ringGroups: seq<Group>, hoveredGroup: Option<string>)
  {
    exists i :: 0 <= i < |ringGroups| && hoveredGroup == Some(ringGroups[i].id)
  }

  /**
   * The two hover tests: a ring of its own is hovered exactly when its group
   * is, and a shared ring exactly when the ring of one of its groups would be;
   * with nothing hovered no ring is, and a ring of no groups never is.
   */
  lemma RingHoveredCases(g: Group, groups: seq<Group>, hoveredGroup: Option<string>)
    ensures RingHovered([g], hoveredGroup) <==> hoveredGroup == Some(g.id)
    ensures RingHovered(groups, hoveredGroup) <==> exists i :: 0 <= i < |groups| && RingHovered([groups[i]], hoveredGroup)
    ensures !RingHovered(groups, None) && !RingHovered([], hoveredGroup)
    ensures forall i :: 0 <= i < |groups| ==> RingHovered(groups, Some(groups[i].id))
  {
    assert [g][0] == g;
    if RingHovered(groups, hoveredGroup) {
      var i :| 0 <= i < |groups| && hoveredGroup == Some(groups[i].id);
      assert [groups[i]][0] == groups[i];
    }
  }

  // ---------------------------------------------------------------------------
  // Items
  // ---------------------------------------------------------------------------

  /** The `animation` prop: every field may be left out. */
  datatype AnimationStyle = AnimationStyle(orbitRotation: Option<bool>, orbitSpeedBase: Option<real>, hoverScale: Option<real>)

  /** The prop's value when the caller passes none. */
  const DEFAULT_ANIMATION: AnimationStyle := AnimationStyle(Some(true), Some(60.0), Some(1.1))

  /** `animation.orbitRotation` read as a condition: a missing value is false. */
  function Rotates(animation: AnimationStyle): bool
  {
    animation.orbitRotation == Some(true)
  }

  /**
   * The scale of an item: an item at rest has scale 1; a hovered item, or one in a hovered group, takes the
   * configured scale, where a missing or zero scale counts as 1.1, so a
   * hovered item never collapses to nothing.
   */
  function ItemScale(animation: AnimationStyle, itemHovered: bool, groupHovered: bool): (scale: real)
    ensures !(itemHovered || groupHovered) ==> scale == 1.0
    ensures itemHovered || groupHovered ==> scale != 0.0
    ensures (itemHovered || groupHovered) && animation.hoverScale.Some? && animation.hoverScale.value != 0.0
      ==> scale == animation.hoverScale.value
    ensures (itemHovered || groupHovered) && (animation.hoverScale.None? || animation.hoverScale.value == 0.0)
      ==> scale == 1.1
  {
    if itemHovered || groupHovered then
      if animation.hoverScale.Some? && animation.hoverScale.value != 0.0 then animation.hoverScale.value else 1.1
    else 1.0
  }

  // ---------------------------------------------------------------------------
  // Orbit rotation
  // ---------------------------------------------------------------------------

  /** The CSS animation of an orbit: none, or `rotate <seconds>s linear infinite`, where a negative duration turns the other way. */
  datatype Rotation = NoRotation | Rotate(seconds: real)

  /** The rotation of the orbit at `orbitIndex`; the source asserts that the speed is present whenever rotation is on. */
  function RotationOf(animation: AnimationStyle, orbitIndex: nat): (r: Rotation)
    requires Rotates(animation) ==> animation.orbitSpeedBase.Some?
    ensures r.NoRotation? <==> !Rotates(animation)
  {
    if Rotates(animation) then
      Rotate(animation.orbitSpeedBase.value * (if orbitIndex % 2 == 0 then 1.0 else -1.0))
    else NoRotation
  }

  /**
   * Orbits alternate direction: neighbouring orbits run at the same speed in
   * opposite directions, and every even orbit turns like orbit 0.
   */
  lemma RotationAlternates(animation: AnimationStyle, orbitIndex: nat)
    requires Rotates(animation) && animation.orbitSpeedBase.Some?
    ensures RotationOf(animation, orbitIndex + 1).seconds == -RotationOf(animation, orbitIndex).seconds
    ensures RotationOf(animation, 2 * orbitIndex).seconds == RotationOf(animation, 0).seconds == animation.orbitSpeedBase.value
  {
  }

  datatype PlayState = Running | Paused

  /** Whether one of the group's items is the hovered item. */
  predicate HasHoveredItem(sortedItems: seq<Item>, hoveredItem: Option<string>)
  {
    exists i :: 0 <= i < |sortedItems| && hoveredItem == Some(sortedItems[i].id)
  }

  /** An orbit runs exactly when rotation is on and none of its items is hovered. */
  function PlayStateOf(animation: AnimationStyle, sortedItems: seq<Item>, hoveredItem: Option<string>): (s: PlayState)
    ensures s == Running <==> Rotates(animation) && !HasHoveredItem(sortedItems, hoveredItem)
  {
    if Rotates(animation) && HasHoveredItem(sortedItems, hoveredItem) then Paused
    else if Rotates(animation) then Running
    else Paused
  }
}
