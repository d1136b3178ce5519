/**
 * The layout planner of the orbit chart (src/components/RadialOrbit.tsx,
 * lines 64-236): the sizes derived from the container, the radius clamping,
 * and the resolved groups of both planning modes, stated as functions.
 * The `groupOrbits` mode is also run step by step in OrbitPlanner.
 */
module OrbitLayout {
  import opened OrbitTypes
  import opened OrbitHelpers

  function Min(a: real, b: real): real
  {
    if a <= b then a else b
  }

  // ---------------------------------------------------------------------------
  // Sizes
  // ---------------------------------------------------------------------------

  /** The container-derived constants; every pixel size scales with `scaleFactor`. */
  datatype Sizes = Sizes(
    centerX: real,
    centerY: real,
    scaleFactor: real,
    centerRadius: real,
    dialRadius: real,
    baseOrbitRadius: real,
    orbitSpacing: real,
    maxAvailableRadius: real)

  function ComputeSizes(width: real, height: real): Sizes
  {
    var minDimension := Min(width, height);
    var scaleFactor := minDimension / 800.0;
    var centerRadius := 60.0 * scaleFactor;
    var dialRadius := centerRadius + 40.0 * scaleFactor;
    var baseOrbitRadius := dialRadius + 60.0 * scaleFactor;
    var orbitSpacing := 120.0 * scaleFactor;
    var maxAvailableRadius := Min(width, height) / 2.0 - 50.0 * scaleFactor;
    Sizes(width / 2.0, height / 2.0, scaleFactor, centerRadius, dialRadius, baseOrbitRadius, orbitSpacing, maxAvailableRadius)
  }

  /**
   * In units of the scale factor s = min(width, height) / 800: the dial sits at
   * 100 s, the first orbit at 160 s, orbits are 120 s apart and the drawable
   * area ends at 350 s; so for a non-empty container the first orbit fits.
   */
  lemma SizesInScaleUnits(width: real, height: real)
    ensures var sz := ComputeSizes(width, height);
      var s := sz.scaleFactor;
      && s == Min(width, height) / 800.0
      && sz.dialRadius == 100.0 * s
      && sz.baseOrbitRadius == 160.0 * s
      && sz.orbitSpacing == 120.0 * s
      && sz.maxAvailableRadius == 350.0 * s
      && (width > 0.0 && height > 0.0 ==> 0.0 < sz.baseOrbitRadius < sz.maxAvailableRadius)
  {
  }

  // ---------------------------------------------------------------------------
  // Orbit radius
  // ---------------------------------------------------------------------------

  /**
   * A radius beyond the drawable area is replaced by the base radius plus an
   * even share, by rank, of the space between the base orbit and the edge.
   */
  function ClampRadius(radius: real, index: nat, count: nat, sizes: Sizes): real
    requires index < count
  {
    if radius > sizes.maxAvailableRadius then
      var availableForOrbits := sizes.maxAvailableRadius - sizes.baseOrbitRadius;
      sizes.baseOrbitRadius + (availableForOrbits / count as real) * (index + 1) as real
    else radius
  }

  /** Clamping never leaves the drawable area and never pulls a radius below the base orbit. */
  lemma ClampRadiusBounded(radius: real, index: nat, count: nat, sizes: Sizes)
    requires index < count && sizes.baseOrbitRadius <= sizes.maxAvailableRadius
    ensures var r := ClampRadius(radius, index, count, sizes);
      && r <= sizes.maxAvailableRadius
      && (radius <= sizes.maxAvailableRadius ==> r == radius)
      && (radius > sizes.maxAvailableRadius ==> sizes.baseOrbitRadius <= r)
  {
    if radius > sizes.maxAvailableRadius {
      var available := sizes.maxAvailableRadius - sizes.baseOrbitRadius;
      var share := available / count as real;
      assert share >= 0.0;
      assert share * count as real == available;
      MulMonotone((index + 1) as real, count as real, share);
    }
  }

  /** `group.radius || ...`: an absent or zero override falls back to the index rule. */
  function RequestedRadius(group: Group, index: nat, sizes: Sizes): real
  {
    if group.radius.Some? && group.radius.value != 0.0 then group.radius.value
    else sizes.baseOrbitRadius + index as real * sizes.orbitSpacing
  }

  /** The orbit radius of the group at `index` in the one-orbit-per-group mode. */
  function DefaultOrbitRadius(group: Group, index: nat, groupCount: nat, sizes: Sizes): real
    requires index < groupCount
  {
    ClampRadius(RequestedRadius(group, index, sizes), index, groupCount, sizes)
  }

  /** The radius shared by bucket `orbitIndex` in the `groupOrbits` mode; group overrides play no part. */
  function OrbitRadius(orbitIndex: nat, bucketCount: nat, sizes: Sizes): real
    requires orbitIndex < bucketCount
  {
    ClampRadius(sizes.baseOrbitRadius + orbitIndex as real * sizes.orbitSpacing, orbitIndex, bucketCount, sizes)
  }

  /**
   * The default-mode radius rule: a truthy override that fits is used as is,
   * otherwise base + index * spacing if it fits; anything that does not fit is
   * clamped to the base radius plus its rank share of the space up to the
   * edge; the result always fits, and without an override it is at least the base radius.
   */
  lemma DefaultRadiusRule(group: Group, index: nat, groupCount: nat, width: real, height: real)
    requires index < groupCount && width > 0.0 && height > 0.0
    ensures var sizes := ComputeSizes(width, height);
      var r := DefaultOrbitRadius(group, index, groupCount, sizes);
      var overridden := group.radius.Some? && group.radius.value != 0.0;
      var indexed := sizes.baseOrbitRadius + index as real * sizes.orbitSpacing;
      && r <= sizes.maxAvailableRadius
      && (overridden && group.radius.value <= sizes.maxAvailableRadius ==> r == group.radius.value)
      && (!overridden && indexed <= sizes.maxAvailableRadius ==> r == indexed)
      && (!overridden ==> sizes.baseOrbitRadius <= r)
      && (RequestedRadius(group, index, sizes) > sizes.maxAvailableRadius ==>
            r == sizes.baseOrbitRadius + (sizes.maxAvailableRadius - sizes.baseOrbitRadius) / groupCount as real * (index + 1) as real)
  {
    var sizes := ComputeSizes(width, height);
    SizesInScaleUnits(width, height);
    var requested := RequestedRadius(group, index, sizes);
    ClampRadiusBounded(requested, index, groupCount, sizes);
    if !(group.radius.Some? && group.radius.value != 0.0) {
      MulMonotone(0.0, index as real, sizes.orbitSpacing);
      assert sizes.baseOrbitRadius <= requested;
    }
  }

  /** Every shared bucket radius fits the drawable area and is at least the base radius. */
  lemma OrbitRadiusBounded(orbitIndex: nat, bucketCount: nat, width: real, height: real)
    requires orbitIndex < bucketCount && width > 0.0 && height > 0.0
    ensures var sizes := ComputeSizes(width, height);
      sizes.baseOrbitRadius <= OrbitRadius(orbitIndex, bucketCount, sizes) <= sizes.maxAvailableRadius
  {
    var sizes := ComputeSizes(width, height);
    SizesInScaleUnits(width, height);
    ClampRadiusBounded(sizes.baseOrbitRadius + orbitIndex as real * sizes.orbitSpacing, orbitIndex, bucketCount, sizes);
  }

  /** Clamped radii are not monotone in the index: five orbits in an 800 by 800 container put orbit 2 inside orbit 1. */
  lemma ClampedRadiiNotMonotone()
    ensures var sizes := ComputeSizes(800.0, 800.0);
      && OrbitRadius(1, 5, sizes) == 280.0
      && OrbitRadius(2, 5, sizes) == 274.0
  {
  }

  // ---------------------------------------------------------------------------
  // Value range of a group
  // ---------------------------------------------------------------------------

  /** A real extended with the infinities that Math.min() and Math.max() return for no arguments. */
  datatype ExtReal = NegInf | Finite(value: real) | PosInf

  /** `Math.min(...values)`. */
  function MinOf(values: seq<real>): (m: ExtReal)
    ensures values == [] <==> m.PosInf?
    ensures !m.NegInf?
    ensures m.Finite? ==> m.value in values && forall v :: v in values ==> m.value <= v
  {
    if values == [] then PosInf
    else
      var rest := MinOf(values[1..]);
      assert forall v :: v in values ==> v == values[0] || v in values[1..];
      if rest.PosInf? || values[0] <= rest.value then Finite(values[0]) else rest
  }

  /** `Math.max(...values)`. */
  function MaxOf(values: seq<real>): (m: ExtReal)
    ensures values == [] <==> m.NegInf?
    ensures !m.PosInf?
    ensures m.Finite? ==> m.value in values && forall v :: v in values ==> v <= m.value
  {
    if values == [] then NegInf
    else
      var rest := MaxOf(values[1..]);
      assert forall v :: v in values ==> v == values[0] || v in values[1..];
      if rest.NegInf? || values[0] >= rest.value then Finite(values[0]) else rest
  }

  /** `lo` and `hi` are the attained bounds of the items' values, or the two infinities for no items. */
  ghost predicate ValueRange(items: seq<Item>, lo: ExtReal, hi: ExtReal)
  {
    if items == [] then lo == PosInf && hi == NegInf
    else
      && lo.Finite? && hi.Finite?
      && (forall i :: 0 <= i < |items| ==> lo.value <= items[i].value <= hi.value)
      && (exists i :: 0 <= i < |items| && items[i].value == lo.value)
      && (exists i :: 0 <= i < |items| && items[i].value == hi.value)
  }

  lemma ValueRangeOfItems(items: seq<Item>)
    ensures ValueRange(items, MinOf(ValuesOf(items)), MaxOf(ValuesOf(items)))
  {
    var vs := ValuesOf(items);
    if items != [] {
      var lo, hi := MinOf(vs), MaxOf(vs);
      forall i | 0 <= i < |items| ensures lo.value <= items[i].value <= hi.value {
        assert vs[i] in vs;
      }
      var a :| 0 <= a < |vs| && vs[a] == lo.value;
      var b :| 0 <= b < |vs| && vs[b] == hi.value;
      assert items[a].value == lo.value && items[b].value == hi.value;
    }
  }

  // ---------------------------------------------------------------------------
  // Resolved groups
  // ---------------------------------------------------------------------------

  /** A group as planned for drawing: its items in display order, its ring and one angle per item. */
  datatype ResolvedGroup = ResolvedGroup(
    group: Group,
    sortedItems: seq<Item>,
    radius: real,
    minValue: ExtReal,
    maxValue: ExtReal,
    angles: seq<real>,
    orbitIndex: nat,
    itemStartIndex: nat)

  /** What holds of every planned group in both modes. */
  ghost predicate WellResolved(r: ResolvedGroup)
  {
    && |r.angles| == |r.sortedItems|
    && multiset(r.sortedItems) == multiset(r.group.items)
    && ValueRange(r.sortedItems, r.minValue, r.maxValue)
  }

  // ---------------------------------------------------------------------------
  // One orbit per group (lines 193-233)
  // ---------------------------------------------------------------------------

  function ResolveDefault(group: Group, index: nat, groupCount: nat, sizes: Sizes, sortBy: SortMode, groupBy: bool): ResolvedGroup
    requires index < groupCount
  {
    var sortedItems := SortItems(group.items, sortBy);
    var allValues := ValuesOf(sortedItems);
    var angles :=
      if groupBy then DistributeAnglesGrouped(|sortedItems|, index, groupCount)
      else DistributeAngles(|sortedItems|);
    ResolvedGroup(group, sortedItems, DefaultOrbitRadius(group, index, groupCount, sizes),
      MinOf(allValues), MaxOf(allValues), angles, index, 0)
  }

  function PlanDefault(groups: seq<Group>, sizes: Sizes, sortBy: SortMode, groupBy: bool): seq<ResolvedGroup>
  {
    seq(|groups|, i requires 0 <= i < |groups| => ResolveDefault(groups[i], i, |groups|, sizes, sortBy, groupBy))
  }

  /**
   * One default-mode group: well resolved, its radius is the default rule's
   * and fits the container, and with `groupBy` its angles (from two items on)
   * stay strictly inside its own sector of the `groupCount` sectors, while
   * without it they stay within one turn from 0.
   */
  lemma ResolveDefaultFacts(group: Group, index: nat, groupCount: nat, width: real, height: real, sortBy: SortMode, groupBy: bool)
    requires index < groupCount && width > 0.0 && height > 0.0
    ensures var sizes := ComputeSizes(width, height);
      var r := ResolveDefault(group, index, groupCount, sizes, sortBy, groupBy);
      && r.group == group
      && r.orbitIndex == index
      && r.itemStartIndex == 0
      && WellResolved(r)
      && r.radius == DefaultOrbitRadius(group, index, groupCount, sizes)
      && r.radius <= sizes.maxAvailableRadius
      && (groupBy && |r.angles| >= 2 ==>
            forall a :: a in r.angles ==>
              SectorStart(index, groupCount, 0.0) < a < SectorStart(index, groupCount, 0.0) + TAU / groupCount as real)
      && (!groupBy ==> forall a :: a in r.angles ==> 0.0 <= a < TAU)
  {
    var sizes := ComputeSizes(width, height);
    var r := ResolveDefault(group, index, groupCount, sizes, sortBy, groupBy);
    var n := |r.sortedItems|;
    ValueRangeOfItems(r.sortedItems);
    DefaultRadiusRule(group, index, groupCount, width, height);
    if groupBy && n >= 2 {
      GroupedInsideSector(n, index, groupCount, 0.0);
    }
    if !groupBy {
      DistributeAnglesSpread(n, 0.0);
    }
  }

  /**
   * The default mode keeps one resolved group per input group, in input
   * order, the group at index i resolved with orbitIndex i against the
   * `|groups|` sectors (see ResolveDefaultFacts).
   */
  lemma PlanDefaultShape(groups: seq<Group>, width: real, height: real, sortBy: SortMode, groupBy: bool)
    requires width > 0.0 && height > 0.0
    ensures var sizes := ComputeSizes(width, height);
      var plan := PlanDefault(groups, sizes, sortBy, groupBy);
      && |plan| == |groups|
      && forall i :: 0 <= i < |plan| ==>
        && plan[i] == ResolveDefault(groups[i], i, |groups|, sizes, sortBy, groupBy)
        && WellResolved(plan[i])
        && plan[i].radius <= sizes.maxAvailableRadius
  {
    var sizes := ComputeSizes(width, height);
    var plan := PlanDefault(groups, sizes, sortBy, groupBy);
    forall i | 0 <= i < |plan|
      ensures WellResolved(plan[i]) && plan[i].radius <= sizes.maxAvailableRadius
    {
      ResolveDefaultFacts(groups[i], i, |groups|, width, height, sortBy, groupBy);
    }
  }

  // ---------------------------------------------------------------------------
  // Orbit buckets (lines 82-189), as functions
  // ---------------------------------------------------------------------------

  /** `groupMap.get(id)` for `new Map(groups.map(g => [g.id, g]))`: the last group with that id wins. */
  function FindGroup(groups: seq<Group>, id: string): (r: Option<Group>)
    ensures r.None? <==> forall k :: 0 <= k < |groups| ==> groups[k].id != id
    ensures r.Some? ==> r.value.id == id && exists k :: (0 <= k < |groups| && groups[k] == r.value
      && forall j :: k < j < |groups| ==> groups[j].id != id)
  {
    if groups == [] then None
    else if groups[|groups| - 1].id == id then Some(groups[|groups| - 1])
    else FindGroup(groups[..|groups| - 1], id)
  }

  /** The groups a bucket names, in bucket order; ids not in the dataset are dropped. */
  function KnownGroups(groups: seq<Group>, ids: seq<string>): (known: seq<Group>)
    ensures |known| <= |ids|
    ensures forall g :: g in known ==> g in groups && g.id in ids
  {
    if ids == [] then []
    else
      var rest := KnownGroups(groups, ids[..|ids| - 1]);
      match FindGroup(groups, ids[|ids| - 1])
      case Some(g) => rest + [g]
      case None => rest
  }

  /** A group whose id a bucket names is among the bucket's known groups. */
  lemma {:induction false} KnownGroupsComplete(groups: seq<Group>, ids: seq<string>, k: nat)
    requires k < |groups| && groups[k].id in ids
    ensures exists g :: g in KnownGroups(groups, ids) && g.id == groups[k].id
  {
    var last := ids[|ids| - 1];
    if last == groups[k].id {
      assert FindGroup(groups, last).Some?;
    } else {
      assert groups[k].id in ids[..|ids| - 1];
      KnownGroupsComplete(groups, ids[..|ids| - 1], k);
    }
  }

  /** One item of a bucket's combined sequence, with the group it came from. */
  datatype PlacedItem = PlacedItem(item: Item, group: Group)

  /** A group's share of a bucket. */
  datatype GroupEntry = GroupEntry(group: Group, sortedItems: seq<Item>, minValue: ExtReal, maxValue: ExtReal, itemStartIndex: nat)

  /** A bucket that has at least one known group. */
  datatype Orbit = Orbit(orbitIndex: nat, radius: real, groups: seq<GroupEntry>, allItems: seq<PlacedItem>, angles: seq<real>)

  function Placed(items: seq<Item>, group: Group): (r: seq<PlacedItem>)
    ensures |r| == |items|
  {
    seq(|items|, i requires 0 <= i < |items| => PlacedItem(items[i], group))
  }

  /** The combined item sequence of a bucket: each known group's sorted items, group after group. */
  function CollectItems(known: seq<Group>, sortBy: SortMode): seq<PlacedItem>
  {
    if known == [] then []
    else
      var g := known[|known| - 1];
      CollectItems(known[..|known| - 1], sortBy) + Placed(SortItems(g.items, sortBy), g)
  }

  function Entry(group: Group, sortBy: SortMode, itemStartIndex: nat): GroupEntry
  {
    var sortedItems := SortItems(group.items, sortBy);
    var allValues := ValuesOf(sortedItems);
    GroupEntry(group, sortedItems, MinOf(allValues), MaxOf(allValues), itemStartIndex)
  }

  /** The entries of a bucket; each starts where the previous groups' items end. */
  function CollectEntries(known: seq<Group>, sortBy: SortMode): seq<GroupEntry>
  {
    if known == [] then []
    else
      var init := known[..|known| - 1];
      CollectEntries(init, sortBy) + [Entry(known[|known| - 1], sortBy, |CollectItems(init, sortBy)|)]
  }

  /** The number of items of the given entries together. */
  function TotalLength(entries: seq<GroupEntry>): nat
  {
    if entries == [] then 0
    else TotalLength(entries[..|entries| - 1]) + |entries[|entries| - 1].sortedItems|
  }

  /** `Array.prototype.slice(from, to)` for non-negative bounds, which it clamps to the length. */
  function Slice(s: seq<real>, from: nat, to: nat): (r: seq<real>)
    ensures from <= to <= |s| ==> r == s[from..to]
  {
    var lo := if from < |s| then from else |s|;
    var hi := if to < |s| then to else |s|;
    if hi <= lo then [] else s[lo..hi]
  }

  function BuildOrbit(groups: seq<Group>, groupOrbits: seq<seq<string>>, orbitIndex: nat, sizes: Sizes, sortBy: SortMode, groupBy: bool): Option<Orbit>
    requires orbitIndex < |groupOrbits|
  {
    var known := KnownGroups(groups, groupOrbits[orbitIndex]);
    if known == [] then None
    else
      var allItems := CollectItems(known, sortBy);
      var angles :=
        if groupBy then DistributeAnglesGrouped(|allItems|, orbitIndex, |groupOrbits|)
        else DistributeAngles(|allItems|);
      Some(Orbit(orbitIndex, OrbitRadius(orbitIndex, |groupOrbits|, sizes), CollectEntries(known, sortBy), allItems, angles))
  }

  /** What each bucket of `groupOrbits` builds, bucket by bucket; a bucket without known groups builds nothing. */
  function BucketOrbits(groups: seq<Group>, groupOrbits: seq<seq<string>>, sizes: Sizes, sortBy: SortMode, groupBy: bool): (r: seq<Option<Orbit>>)
    ensures |r| == |groupOrbits|
  {
    seq(|groupOrbits|, i requires 0 <= i < |groupOrbits| => BuildOrbit(groups, groupOrbits, i, sizes, sortBy, groupBy))
  }

  /** The built orbits, in bucket order, skipping the buckets that built nothing. */
  function Present(built: seq<Option<Orbit>>): seq<Orbit>
  {
    if built == [] then []
    else
      Present(built[..|built| - 1]) +
      match built[|built| - 1]
      case Some(o) => [o]
      case None => []
  }

  /** A bucket entry resolved against its orbit: the shared radius and its own slice of the shared angles. */
  function ResolveEntry(e: GroupEntry, o: Orbit): ResolvedGroup
  {
    ResolvedGroup(e.group, e.sortedItems, o.radius, e.minValue, e.maxValue,
      Slice(o.angles, e.itemStartIndex, e.itemStartIndex + |e.sortedItems|), o.orbitIndex, e.itemStartIndex)
  }

  function FlattenEntries(entries: seq<GroupEntry>, o: Orbit): (r: seq<ResolvedGroup>)
    ensures |r| == |entries|
  {
    seq(|entries|, j requires 0 <= j < |entries| => ResolveEntry(entries[j], o))
  }

  function FlattenAll(orbits: seq<Orbit>): seq<ResolvedGroup>
  {
    if orbits == [] then []
    else
      var o := orbits[|orbits| - 1];
      FlattenAll(orbits[..|orbits| - 1]) + FlattenEntries(o.groups, o)
  }

  /** The plan of the `groupOrbits` mode. */
  function PlanBuckets(groups: seq<Group>, groupOrbits: seq<seq<string>>, sizes: Sizes, sortBy: SortMode, groupBy: bool): seq<ResolvedGroup>
  {
    FlattenAll(Present(BucketOrbits(groups, groupOrbits, sizes, sortBy, groupBy)))
  }

  /** The whole planner: `groupOrbits` mode when a non-empty bucket list is given, one orbit per group otherwise. */
  function Plan(data: Dataset, width: real, height: real, sortBy: SortMode, groupBy: bool, groupOrbits: Option<seq<seq<string>>>): seq<ResolvedGroup>
  {
    var sizes := ComputeSizes(width, height);
    if groupOrbits.Some? && |groupOrbits.value| > 0 then PlanBuckets(data.groups, groupOrbits.value, sizes, sortBy, groupBy)
    else PlanDefault(data.groups, sizes, sortBy, groupBy)
  }

  // ---------------------------------------------------------------------------
  // Orbit buckets: properties
  // ---------------------------------------------------------------------------

  /** The angles of resolved groups, concatenated in order. */
  function ConcatAngles(rs: seq<ResolvedGroup>): seq<real>
  {
    if rs == [] then [] else ConcatAngles(rs[..|rs| - 1]) + rs[|rs| - 1].angles
  }

  /** The groups of a plan, in plan order. */
  function GroupsOf(rs: seq<ResolvedGroup>): (gs: seq<Group>)
    ensures |gs| == |rs|
  {
    seq(|rs|, i requires 0 <= i < |rs| => rs[i].group)
  }

  /** The known groups of the first `count` buckets, bucket after bucket. */
  function BucketGroups(groups: seq<Group>, groupOrbits: seq<seq<string>>, count: nat): seq<Group>
    requires count <= |groupOrbits|
  {
    if count == 0 then []
    else BucketGroups(groups, groupOrbits, count - 1) + KnownGroups(groups, groupOrbits[count - 1])
  }

  /**
   * The entries of a bucket are its known groups in order; each starts where
   * the items of the groups before it end, and the combined item sequence is
   * exactly as long as all entries together.
   */
  lemma {:induction false} EntriesLayout(known: seq<Group>, sortBy: SortMode)
    ensures var entries := CollectEntries(known, sortBy);
      && |entries| == |known|
      && |CollectItems(known, sortBy)| == TotalLength(entries)
      && forall j :: 0 <= j < |entries| ==> entries[j] == Entry(known[j], sortBy, TotalLength(entries[..j]))
  {
    if known != [] {
      var init := known[..|known| - 1];
      EntriesLayout(init, sortBy);
      var prev := CollectEntries(init, sortBy);
      var last := Entry(known[|known| - 1], sortBy, |CollectItems(init, sortBy)|);
      CollectLast(known, sortBy);
      TotalLengthSnoc(prev, last);
      EntriesStep(known, prev, last, sortBy);
    }
  }

  /** One step of the bucket loop: the last known group adds its entry and its placed items. */
  lemma CollectLast(known: seq<Group>, sortBy: SortMode)
    requires known != []
    ensures var init, g := known[..|known| - 1], known[|known| - 1];
      var last := Entry(g, sortBy, |CollectItems(init, sortBy)|);
      && CollectEntries(known, sortBy) == CollectEntries(init, sortBy) + [last]
      && |CollectItems(known, sortBy)| == |CollectItems(init, sortBy)| + |last.sortedItems|
  {
  }

  lemma TotalLengthSnoc(prev: seq<GroupEntry>, last: GroupEntry)
    ensures TotalLength(prev + [last]) == TotalLength(prev) + |last.sortedItems|
  {
    assert (prev + [last])[..|prev|] == prev;
  }

  lemma EntriesStep(known: seq<Group>, prev: seq<GroupEntry>, last: GroupEntry, sortBy: SortMode)
    requires |known| == |prev| + 1
    requires last == Entry(known[|prev|], sortBy, TotalLength(prev))
    requires forall j :: 0 <= j < |prev| ==> prev[j] == Entry(known[j], sortBy, TotalLength(prev[..j]))
    ensures var entries := prev + [last];
      forall j :: 0 <= j < |entries| ==> entries[j] == Entry(known[j], sortBy, TotalLength(entries[..j]))
  {
    var entries := prev + [last];
    forall j | 0 <= j < |entries|
      ensures entries[j] == Entry(known[j], sortBy, TotalLength(entries[..j]))
    {
      if j < |prev| {
        assert entries[..j] == prev[..j];
      } else {
        assert entries[..j] == prev;
      }
    }
  }

  lemma {:induction false} TotalLengthPrefix(entries: seq<GroupEntry>, j: nat)
    requires j <= |entries|
    ensures TotalLength(entries[..j]) <= TotalLength(entries)
  {
    if j < |entries| {
      var init := entries[..|entries| - 1];
      assert init[..j] == entries[..j];
      TotalLengthPrefix(init, j);
    } else {
      assert entries[..j] == entries;
    }
  }

  /** Entries laid end to end: the slices of the shared angles concatenate to the angles they cover. */
  lemma {:induction false} SlicesConcatenate(entries: seq<GroupEntry>, o: Orbit)
    requires forall j :: 0 <= j < |entries| ==> entries[j].itemStartIndex == TotalLength(entries[..j])
    requires TotalLength(entries) <= |o.angles|
    ensures ConcatAngles(FlattenEntries(entries, o)) == o.angles[..TotalLength(entries)]
  {
    if entries != [] {
      var init := entries[..|entries| - 1];
      var last := entries[|entries| - 1];
      EndToEndInit(entries);
      var start := TotalLength(init);
      var end := TotalLength(entries);
      assert end == start + |last.sortedItems|;
      assert last.itemStartIndex == start;
      calc {
        ConcatAngles(FlattenEntries(entries, o));
        == { FlattenEntriesLast(entries, o); }
        ConcatAngles(FlattenEntries(init, o)) + ResolveEntry(last, o).angles;
        == { SlicesConcatenate(init, o); EntrySlice(last, o); }
        o.angles[..start] + o.angles[start..end];
        == { PrefixSplit(o.angles, start, end); }
        o.angles[..end];
      }
    }
  }

  lemma PrefixSplit(s: seq<real>, i: nat, j: nat)
    requires i <= j <= |s|
    ensures s[..i] + s[i..j] == s[..j]
  {
  }

  /** Dropping the last of entries laid end to end leaves entries laid end to end. */
  lemma EndToEndInit(entries: seq<GroupEntry>)
    requires entries != []
    requires forall j :: 0 <= j < |entries| ==> entries[j].itemStartIndex == TotalLength(entries[..j])
    ensures var init := entries[..|entries| - 1];
      forall j :: 0 <= j < |init| ==> init[j].itemStartIndex == TotalLength(init[..j])
  {
    var init := entries[..|entries| - 1];
    forall j | 0 <= j < |init| ensures init[j].itemStartIndex == TotalLength(init[..j]) {
      assert init[..j] == entries[..j];
    }
  }

  /** Flattening one more entry adds that entry's angles to the concatenation. */
  lemma FlattenEntriesLast(entries: seq<GroupEntry>, o: Orbit)
    requires entries != []
    ensures var init := entries[..|entries| - 1];
      ConcatAngles(FlattenEntries(entries, o))
        == ConcatAngles(FlattenEntries(init, o)) + ResolveEntry(entries[|entries| - 1], o).angles
  {
    var flat := FlattenEntries(entries, o);
    assert flat[..|flat| - 1] == FlattenEntries(entries[..|entries| - 1], o);
  }

  /** Each entry's slice of the shared angles has exactly one angle per item of the entry. */
  lemma SliceLengths(entries: seq<GroupEntry>, o: Orbit)
    requires forall j :: 0 <= j < |entries| ==> entries[j].itemStartIndex == TotalLength(entries[..j])
    requires TotalLength(entries) <= |o.angles|
    ensures forall j :: 0 <= j < |entries| ==> |ResolveEntry(entries[j], o).angles| == |entries[j].sortedItems|
  {
    forall j | 0 <= j < |entries|
      ensures |ResolveEntry(entries[j], o).angles| == |entries[j].sortedItems|
    {
      EntryWithin(entries, j);
      EntrySlice(entries[j], o);
    }
  }

  /** An entry whose items fit the angles gets exactly the angles at its items' positions. */
  lemma EntrySlice(e: GroupEntry, o: Orbit)
    requires e.itemStartIndex + |e.sortedItems| <= |o.angles|
    ensures ResolveEntry(e, o).angles == o.angles[e.itemStartIndex..e.itemStartIndex + |e.sortedItems|]
  {
  }

  /** In entries laid end to end, each entry ends within the total length. */
  lemma EntryWithin(entries: seq<GroupEntry>, j: nat)
    requires j < |entries|
    requires entries[j].itemStartIndex == TotalLength(entries[..j])
    ensures entries[j].itemStartIndex + |entries[j].sortedItems| <= TotalLength(entries)
  {
    TotalLengthPrefix(entries, j + 1);
    assert entries[..j + 1][..j] == entries[..j];
  }

  /** What a built orbit holds: its bucket's index and radius, the entries and items of its known groups, one angle per item. */
  lemma BuildOrbitShape(groups: seq<Group>, groupOrbits: seq<seq<string>>, orbitIndex: nat, sizes: Sizes, sortBy: SortMode, groupBy: bool)
    requires orbitIndex < |groupOrbits|
    requires BuildOrbit(groups, groupOrbits, orbitIndex, sizes, sortBy, groupBy).Some?
    ensures var o := BuildOrbit(groups, groupOrbits, orbitIndex, sizes, sortBy, groupBy).value;
      var known := KnownGroups(groups, groupOrbits[orbitIndex]);
      && known != []
      && o.orbitIndex == orbitIndex
      && o.radius == OrbitRadius(orbitIndex, |groupOrbits|, sizes)
      && o.groups == CollectEntries(known, sortBy)
      && o.allItems == CollectItems(known, sortBy)
      && |o.angles| == |o.allItems|
  {
  }

  /** The entries of known groups over one angle per combined item lie end to end and their slices make up all the angles. */
  lemma EntriesCoverAngles(known: seq<Group>, sortBy: SortMode, o: Orbit)
    requires o.groups == CollectEntries(known, sortBy) && |o.angles| == |CollectItems(known, sortBy)|
    ensures |o.groups| == |known|
    ensures forall j :: 0 <= j < |o.groups| ==>
      o.groups[j].group == known[j] && o.groups[j].itemStartIndex == TotalLength(o.groups[..j])
    ensures |o.angles| == TotalLength(o.groups)
    ensures ConcatAngles(FlattenEntries(o.groups, o)) == o.angles
  {
    EntriesEndToEnd(known, sortBy);
    SlicesCoverAngles(o.groups, o);
  }

  /** Entries laid end to end over all of an orbit's angles: their slices make up those angles. */
  lemma SlicesCoverAngles(entries: seq<GroupEntry>, o: Orbit)
    requires forall j :: 0 <= j < |entries| ==> entries[j].itemStartIndex == TotalLength(entries[..j])
    requires |o.angles| == TotalLength(entries)
    ensures ConcatAngles(FlattenEntries(entries, o)) == o.angles
  {
    SlicesConcatenate(entries, o);
    assert o.angles[..TotalLength(entries)] == o.angles;
  }

  /** The entries of known groups follow those groups and lie end to end over the combined items. */
  lemma EntriesEndToEnd(known: seq<Group>, sortBy: SortMode)
    ensures var entries := CollectEntries(known, sortBy);
      && |entries| == |known|
      && |CollectItems(known, sortBy)| == TotalLength(entries)
      && forall j :: 0 <= j < |entries| ==>
           entries[j].group == known[j] && entries[j].itemStartIndex == TotalLength(entries[..j])
  {
    EntriesLayout(known, sortBy);
  }

  /** The entries of known groups over one angle per combined item resolve to well-resolved groups. */
  lemma EntriesWellResolved(known: seq<Group>, sortBy: SortMode, o: Orbit)
    requires o.groups == CollectEntries(known, sortBy) && |o.angles| == |CollectItems(known, sortBy)|
    ensures |o.groups| == |known|
    ensures forall j :: 0 <= j < |o.groups| ==> o.groups[j].group == known[j] && WellResolved(ResolveEntry(o.groups[j], o))
  {
    EntriesLayout(known, sortBy);
    SliceLengths(o.groups, o);
    forall j | 0 <= j < |o.groups| ensures o.groups[j].group == known[j] && WellResolved(ResolveEntry(o.groups[j], o)) {
      assert o.groups[j] == Entry(known[j], sortBy, TotalLength(o.groups[..j]));
      ValueRangeOfItems(o.groups[j].sortedItems);
    }
  }

  /**
   * A built orbit: it carries its bucket's index and shared radius, its
   * entries are the bucket's known groups in order, laid end to end over the
   * combined items with one angle per item, and the entries' slices
   * concatenate back to the bucket's whole angle sequence.
   */
  lemma OrbitLayoutFacts(groups: seq<Group>, groupOrbits: seq<seq<string>>, orbitIndex: nat, sizes: Sizes, sortBy: SortMode, groupBy: bool)
    requires orbitIndex < |groupOrbits|
    requires BuildOrbit(groups, groupOrbits, orbitIndex, sizes, sortBy, groupBy).Some?
    ensures var o := BuildOrbit(groups, groupOrbits, orbitIndex, sizes, sortBy, groupBy).value;
      var known := KnownGroups(groups, groupOrbits[orbitIndex]);
      && o.orbitIndex == orbitIndex
      && o.radius == OrbitRadius(orbitIndex, |groupOrbits|, sizes)
      && |o.groups| == |known| > 0
      && (forall j :: 0 <= j < |o.groups| ==>
            o.groups[j].group == known[j] && o.groups[j].itemStartIndex == TotalLength(o.groups[..j]))
      && |o.angles| == |o.allItems| == TotalLength(o.groups)
      && ConcatAngles(FlattenEntries(o.groups, o)) == o.angles
  {
    var o := BuildOrbit(groups, groupOrbits, orbitIndex, sizes, sortBy, groupBy).value;
    BuildOrbitShape(groups, groupOrbits, orbitIndex, sizes, sortBy, groupBy);
    EntriesCoverAngles(KnownGroups(groups, groupOrbits[orbitIndex]), sortBy, o);
  }

  /** Every entry of a built orbit resolves to a well-resolved group of the bucket's known groups. */
  lemma OrbitEntriesResolved(groups: seq<Group>, groupOrbits: seq<seq<string>>, orbitIndex: nat, sizes: Sizes, sortBy: SortMode, groupBy: bool)
    requires orbitIndex < |groupOrbits|
    requires BuildOrbit(groups, groupOrbits, orbitIndex, sizes, sortBy, groupBy).Some?
    ensures var o := BuildOrbit(groups, groupOrbits, orbitIndex, sizes, sortBy, groupBy).value;
      var known := KnownGroups(groups, groupOrbits[orbitIndex]);
      && |o.groups| == |known|
      && o.orbitIndex == orbitIndex
      && o.radius == OrbitRadius(orbitIndex, |groupOrbits|, sizes)
      && forall j :: 0 <= j < |o.groups| ==> o.groups[j].group == known[j] && WellResolved(ResolveEntry(o.groups[j], o))
  {
    var o := BuildOrbit(groups, groupOrbits, orbitIndex, sizes, sortBy, groupBy).value;
    BuildOrbitShape(groups, groupOrbits, orbitIndex, sizes, sortBy, groupBy);
    EntriesWellResolved(KnownGroups(groups, groupOrbits[orbitIndex]), sortBy, o);
  }

  /** What every group of the `groupOrbits` plan satisfies. */
  ghost predicate FromBucket(r: ResolvedGroup, groups: seq<Group>, groupOrbits: seq<seq<string>>, sizes: Sizes)
  {
    && r.orbitIndex < |groupOrbits|
    && r.group in groups
    && r.group.id in groupOrbits[r.orbitIndex]
    && r.radius == OrbitRadius(r.orbitIndex, |groupOrbits|, sizes)
    && WellResolved(r)
  }

  /** The resolved groups of one built orbit are its bucket's known groups, in bucket order. */
  lemma OrbitGroups(groups: seq<Group>, groupOrbits: seq<seq<string>>, orbitIndex: nat, sizes: Sizes, sortBy: SortMode, groupBy: bool)
    requires orbitIndex < |groupOrbits|
    requires BuildOrbit(groups, groupOrbits, orbitIndex, sizes, sortBy, groupBy).Some?
    ensures var o := BuildOrbit(groups, groupOrbits, orbitIndex, sizes, sortBy, groupBy).value;
      GroupsOf(FlattenEntries(o.groups, o)) == KnownGroups(groups, groupOrbits[orbitIndex])
  {
    OrbitEntriesResolved(groups, groupOrbits, orbitIndex, sizes, sortBy, groupBy);
  }

  /** Each resolved group of one built orbit satisfies FromBucket for that orbit's bucket. */
  lemma OrbitFromBucket(groups: seq<Group>, groupOrbits: seq<seq<string>>, orbitIndex: nat, sizes: Sizes, sortBy: SortMode, groupBy: bool)
    requires orbitIndex < |groupOrbits|
    requires BuildOrbit(groups, groupOrbits, orbitIndex, sizes, sortBy, groupBy).Some?
    ensures var o := BuildOrbit(groups, groupOrbits, orbitIndex, sizes, sortBy, groupBy).value;
      var rs := FlattenEntries(o.groups, o);
      forall i :: 0 <= i < |rs| ==> FromBucket(rs[i], groups, groupOrbits, sizes) && rs[i].orbitIndex == orbitIndex
  {
    var o := BuildOrbit(groups, groupOrbits, orbitIndex, sizes, sortBy, groupBy).value;
    var known := KnownGroups(groups, groupOrbits[orbitIndex]);
    OrbitEntriesResolved(groups, groupOrbits, orbitIndex, sizes, sortBy, groupBy);
    var rs := FlattenEntries(o.groups, o);
    forall i | 0 <= i < |rs| ensures FromBucket(rs[i], groups, groupOrbits, sizes) {
      assert rs[i].group == known[i];
      assert known[i] in known;
    }
  }

  /** What bucket `orbitIndex` builds: nothing when it names no known group, otherwise an orbit of its known groups, each FromBucket. */
  ghost predicate SlotFromBucket(built: Option<Orbit>, orbitIndex: nat, groups: seq<Group>, groupOrbits: seq<seq<string>>, sizes: Sizes)
    requires orbitIndex < |groupOrbits|
  {
    match built
    case None => KnownGroups(groups, groupOrbits[orbitIndex]) == []
    case Some(o) =>
      var rs := FlattenEntries(o.groups, o);
      && GroupsOf(rs) == KnownGroups(groups, groupOrbits[orbitIndex])
      && forall i :: 0 <= i < |rs| ==> FromBucket(rs[i], groups, groupOrbits, sizes) && rs[i].orbitIndex == orbitIndex
  }

  lemma BucketOrbitsFromBucket(groups: seq<Group>, groupOrbits: seq<seq<string>>, sizes: Sizes, sortBy: SortMode, groupBy: bool)
    ensures var built := BucketOrbits(groups, groupOrbits, sizes, sortBy, groupBy);
      forall i :: 0 <= i < |built| ==> SlotFromBucket(built[i], i, groups, groupOrbits, sizes)
  {
    var built := BucketOrbits(groups, groupOrbits, sizes, sortBy, groupBy);
    forall i | 0 <= i < |built| ensures SlotFromBucket(built[i], i, groups, groupOrbits, sizes) {
      if built[i].Some? {
        OrbitGroups(groups, groupOrbits, i, sizes, sortBy, groupBy);
        OrbitFromBucket(groups, groupOrbits, i, sizes, sortBy, groupBy);
      }
    }
  }

  /**
   * Flattening the orbits of the first `|built|` buckets lists their known
   * groups bucket after bucket, each FromBucket and from one of those buckets.
   */
  lemma {:induction false} PresentFromBucket(built: seq<Option<Orbit>>, groups: seq<Group>, groupOrbits: seq<seq<string>>, sizes: Sizes)
    requires |built| <= |groupOrbits|
    requires forall i :: 0 <= i < |built| ==> SlotFromBucket(built[i], i, groups, groupOrbits, sizes)
    ensures var plan := FlattenAll(Present(built));
      && GroupsOf(plan) == BucketGroups(groups, groupOrbits, |built|)
      && forall i :: 0 <= i < |plan| ==> FromBucket(plan[i], groups, groupOrbits, sizes) && plan[i].orbitIndex < |built|
  {
    if built != [] {
      var n := |built|;
      var init := built[..n - 1];
      PresentFromBucket(init, groups, groupOrbits, sizes);
      var before := Present(init);
      var earlier := BucketGroups(groups, groupOrbits, n - 1);
      var known := KnownGroups(groups, groupOrbits[n - 1]);
      assert BucketGroups(groups, groupOrbits, n) == earlier + known;
      match built[n - 1]
      case None =>
        assert Present(built) == before;
        assert earlier + known == earlier;
      case Some(o) =>
        assert Present(built) == before + [o];
        FlattenAllSnoc(before, o);
        AppendFromBucket(FlattenAll(before), FlattenEntries(o.groups, o), groups, groupOrbits, sizes, n);
    }
  }

  lemma FlattenAllSnoc(before: seq<Orbit>, o: Orbit)
    ensures FlattenAll(before + [o]) == FlattenAll(before) + FlattenEntries(o.groups, o)
    ensures GroupsOf(FlattenAll(before) + FlattenEntries(o.groups, o)) == GroupsOf(FlattenAll(before)) + GroupsOf(FlattenEntries(o.groups, o))
  {
    assert (before + [o])[..|before|] == before;
  }

  lemma AppendFromBucket(head: seq<ResolvedGroup>, tail: seq<ResolvedGroup>, groups: seq<Group>, groupOrbits: seq<seq<string>>, sizes: Sizes, count: nat)
    requires forall i :: 0 <= i < |head| ==> FromBucket(head[i], groups, groupOrbits, sizes) && head[i].orbitIndex < count - 1
    requires forall i :: 0 <= i < |tail| ==> FromBucket(tail[i], groups, groupOrbits, sizes) && tail[i].orbitIndex == count - 1
    ensures forall i :: 0 <= i < |head + tail| ==> FromBucket((head + tail)[i], groups, groupOrbits, sizes) && (head + tail)[i].orbitIndex < count
  {
  }

  /**
   * The `groupOrbits` plan lists the known groups of each bucket, bucket
   * after bucket and in bucket order; every planned group comes from the
   * dataset, is named by the bucket it was planned in, shares that bucket's
   * radius (which fits the container), and is well resolved.
   */
  lemma PlanBucketsFacts(groups: seq<Group>, groupOrbits: seq<seq<string>>, width: real, height: real, sortBy: SortMode, groupBy: bool)
    requires width > 0.0 && height > 0.0
    ensures var sizes := ComputeSizes(width, height);
      var plan := PlanBuckets(groups, groupOrbits, sizes, sortBy, groupBy);
      && GroupsOf(plan) == BucketGroups(groups, groupOrbits, |groupOrbits|)
      && forall i :: 0 <= i < |plan| ==>
           FromBucket(plan[i], groups, groupOrbits, sizes) && plan[i].radius <= sizes.maxAvailableRadius
  {
    var sizes := ComputeSizes(width, height);
    var built := BucketOrbits(groups, groupOrbits, sizes, sortBy, groupBy);
    BucketOrbitsFromBucket(groups, groupOrbits, sizes, sortBy, groupBy);
    PresentFromBucket(built, groups, groupOrbits, sizes);
    var plan := PlanBuckets(groups, groupOrbits, sizes, sortBy, groupBy);
    forall i | 0 <= i < |plan| ensures plan[i].radius <= sizes.maxAvailableRadius {
      OrbitRadiusBounded(plan[i].orbitIndex, |groupOrbits|, width, height);
    }
  }

  /**
   * Whichever mode applies, every planned group comes from the dataset, is
   * well resolved (one angle per item, its items a reordering of the group's,
   * the attained value range) and its orbit fits the container.
   */
  lemma PlanFacts(data: Dataset, width: real, height: real, sortBy: SortMode, groupBy: bool, groupOrbits: Option<seq<seq<string>>>)
    requires width > 0.0 && height > 0.0
    ensures var plan := Plan(data, width, height, sortBy, groupBy, groupOrbits);
      forall i :: 0 <= i < |plan| ==>
        && plan[i].group in data.groups
        && WellResolved(plan[i])
        && plan[i].radius <= ComputeSizes(width, height).maxAvailableRadius
  {
    if groupOrbits.Some? && |groupOrbits.value| > 0 {
      PlanBucketsFacts(data.groups, groupOrbits.value, width, height, sortBy, groupBy);
    } else {
      PlanDefaultShape(data.groups, width, height, sortBy, groupBy);
    }
  }
}
