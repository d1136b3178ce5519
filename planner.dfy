/**
 * The `processedGroups` computation of src/components/RadialOrbit.tsx
 * (lines 80-236) as the component runs it: the `groupOrbits` branch pushes
 * into its arrays loop by loop and is proved to build exactly the plan that
 * OrbitLayout specifies; the default branch is a single map and is that
 * plan directly.
 */
module OrbitPlanner {
  import opened OrbitTypes
  import opened OrbitHelpers
  import opened OrbitLayout

  /** The inner `sortedItems.forEach(item => allItems.push({ item, group }))`. */
  method PushItems(allItems: seq<PlacedItem>, sortedItems: seq<Item>, group: Group) returns (extended: seq<PlacedItem>)
    ensures extended == allItems + Placed(sortedItems, group)
  {
    extended := allItems;
    var j := 0;
    while j < |sortedItems|
      invariant j <= |sortedItems|
      invariant extended == allItems + Placed(sortedItems[..j], group)
    {
      assert Placed(sortedItems[..j + 1], group) == Placed(sortedItems[..j], group) + [PlacedItem(sortedItems[j], group)];
      extended := extended + [PlacedItem(sortedItems[j], group)];
      j := j + 1;
    }
    assert sortedItems[..j] == sortedItems;
  }

  /** `orbitGroups.forEach(...)`: the bucket's combined items and its entries, one group at a time. */
  method CollectBucket(orbitGroups: seq<Group>, sortBy: SortMode) returns (allItems: seq<PlacedItem>, groupsWithItems: seq<GroupEntry>)
    ensures allItems == CollectItems(orbitGroups, sortBy)
    ensures groupsWithItems == CollectEntries(orbitGroups, sortBy)
  {
    allItems := [];
    groupsWithItems := [];
    var k := 0;
    while k < |orbitGroups|
      invariant k <= |orbitGroups|
      invariant allItems == CollectItems(orbitGroups[..k], sortBy)
      invariant groupsWithItems == CollectEntries(orbitGroups[..k], sortBy)
    {
      var group := orbitGroups[k];
      var sortedItems := SortItems(group.items, sortBy);
      var allValues := ValuesOf(sortedItems);
      var minValue := MinOf(allValues);
      var maxValue := MaxOf(allValues);
      var itemStartIndex := |allItems|;
      assert orbitGroups[..k + 1][..k] == orbitGroups[..k];
      allItems := PushItems(allItems, sortedItems, group);
      groupsWithItems := groupsWithItems + [GroupEntry(group, sortedItems, minValue, maxValue, itemStartIndex)];
      k := k + 1;
    }
    assert orbitGroups[..k] == orbitGroups;
  }

  /** The radius of bucket `orbitIndex`, computed and then scaled down as the component does. */
  method BucketRadius(orbitIndex: nat, bucketCount: nat, sizes: Sizes) returns (radius: real)
    requires orbitIndex < bucketCount
    ensures radius == OrbitRadius(orbitIndex, bucketCount, sizes)
  {
    radius := sizes.baseOrbitRadius + orbitIndex as real * sizes.orbitSpacing;
    if radius > sizes.maxAvailableRadius {
      var availableForOrbits := sizes.maxAvailableRadius - sizes.baseOrbitRadius;
      radius := sizes.baseOrbitRadius + (availableForOrbits / bucketCount as real) * (orbitIndex + 1) as real;
    }
  }

  /** One more bucket adds its orbit, if it built one, to the present orbits. */
  lemma PresentStep(built: seq<Option<Orbit>>, i: nat)
    requires i < |built|
    ensures Present(built[..i + 1]) == Present(built[..i]) + (if built[i].Some? then [built[i].value] else [])
  {
    assert built[..i + 1][..i] == built[..i];
  }

  /** The body of `groupOrbits.forEach`: bucket `orbitIndex` builds an orbit when it names a known group. */
  method BuildBucket(groups: seq<Group>, groupOrbits: seq<seq<string>>, orbitIndex: nat, sizes: Sizes, sortBy: SortMode, groupBy: bool)
    returns (built: Option<Orbit>)
    requires orbitIndex < |groupOrbits|
    ensures built == BuildOrbit(groups, groupOrbits, orbitIndex, sizes, sortBy, groupBy)
  {
    var orbitGroups := KnownGroups(groups, groupOrbits[orbitIndex]);
    if |orbitGroups| == 0 {
      return None;
    }
    var radius := BucketRadius(orbitIndex, |groupOrbits|, sizes);
    var allItems, groupsWithItems := CollectBucket(orbitGroups, sortBy);
    var angles :=
      if groupBy then DistributeAnglesGrouped(|allItems|, orbitIndex, |groupOrbits|)
      else DistributeAngles(|allItems|);
    built := Some(Orbit(orbitIndex, radius, groupsWithItems, allItems, angles));
  }

  /** `groupOrbits.forEach((orbitGroupIds, orbitIndex) => ...)`: one orbit per bucket that names a known group. */
  method BuildOrbits(groups: seq<Group>, groupOrbits: seq<seq<string>>, sizes: Sizes, sortBy: SortMode, groupBy: bool)
    returns (processedOrbits: seq<Orbit>)
    ensures processedOrbits == Present(BucketOrbits(groups, groupOrbits, sizes, sortBy, groupBy))
  {
    ghost var built := BucketOrbits(groups, groupOrbits, sizes, sortBy, groupBy);
    processedOrbits := [];
    var orbitIndex := 0;
    while orbitIndex < |groupOrbits|
      invariant orbitIndex <= |groupOrbits|
      invariant processedOrbits == Present(built[..orbitIndex])
    {
      var orbit := BuildBucket(groups, groupOrbits, orbitIndex, sizes, sortBy, groupBy);
      assert built[orbitIndex] == orbit;
      PresentStep(built, orbitIndex);
      if orbit.Some? {
        processedOrbits := processedOrbits + [orbit.value];
      }
      orbitIndex := orbitIndex + 1;
    }
    assert built[..orbitIndex] == built;
  }

  /** `orbit.groups.forEach(...)`: each entry with the orbit's radius and its slice of the orbit's angles. */
  method FlattenOrbit(flatGroups: seq<ResolvedGroup>, orbit: Orbit) returns (extended: seq<ResolvedGroup>)
    ensures extended == flatGroups + FlattenEntries(orbit.groups, orbit)
  {
    extended := flatGroups;
    var g := 0;
    while g < |orbit.groups|
      invariant g <= |orbit.groups|
      invariant extended == flatGroups + FlattenEntries(orbit.groups[..g], orbit)
    {
      var groupData := orbit.groups[g];
      var groupAngles := Slice(orbit.angles, groupData.itemStartIndex, groupData.itemStartIndex + |groupData.sortedItems|);
      var resolved := ResolvedGroup(groupData.group, groupData.sortedItems, orbit.radius, groupData.minValue,
        groupData.maxValue, groupAngles, orbit.orbitIndex, groupData.itemStartIndex);
      assert FlattenEntries(orbit.groups[..g + 1], orbit) == FlattenEntries(orbit.groups[..g], orbit) + [resolved];
      extended := extended + [resolved];
      g := g + 1;
    }
    assert orbit.groups[..g] == orbit.groups;
  }

  /** `processedOrbits.forEach(...)`: every orbit's resolved groups, orbit after orbit. */
  method FlattenOrbits(processedOrbits: seq<Orbit>) returns (flatGroups: seq<ResolvedGroup>)
    ensures flatGroups == FlattenAll(processedOrbits)
  {
    flatGroups := [];
    var o := 0;
    while o < |processedOrbits|
      invariant o <= |processedOrbits|
      invariant flatGroups == FlattenAll(processedOrbits[..o])
    {
      assert processedOrbits[..o + 1][..o] == processedOrbits[..o];
      flatGroups := FlattenOrbit(flatGroups, processedOrbits[o]);
      o := o + 1;
    }
    assert processedOrbits[..o] == processedOrbits;
  }

  /** The `groupOrbits` branch: build the orbits, then flatten them back into one list of groups. */
  method PlanGroupOrbits(groups: seq<Group>, groupOrbits: seq<seq<string>>, sizes: Sizes, sortBy: SortMode, groupBy: bool)
    returns (flatGroups: seq<ResolvedGroup>)
    ensures flatGroups == PlanBuckets(groups, groupOrbits, sizes, sortBy, groupBy)
  {
    var processedOrbits := BuildOrbits(groups, groupOrbits, sizes, sortBy, groupBy);
    flatGroups := FlattenOrbits(processedOrbits);
  }

  /**
   * `processedGroups`: the `groupOrbits` branch when a non-empty bucket list
   * is given, one orbit per group otherwise; the result is the plan whose
   * properties OrbitLayout.PlanFacts states.
   */
  method ProcessGroups(data: Dataset, width: real, height: real, sortBy: SortMode, groupBy: bool, groupOrbits: Option<seq<seq<string>>>)
    returns (processed: seq<ResolvedGroup>)
    ensures processed == Plan(data, width, height, sortBy, groupBy, groupOrbits)
    ensures width > 0.0 && height > 0.0 ==> forall i :: 0 <= i < |processed| ==>
      processed[i].group in data.groups && WellResolved(processed[i])
      && processed[i].radius <= ComputeSizes(width, height).maxAvailableRadius
  {
    var sizes := ComputeSizes(width, height);
    if groupOrbits.Some? && |groupOrbits.value| > 0 {
      processed := PlanGroupOrbits(data.groups, groupOrbits.value, sizes, sortBy, groupBy);
    } else {
      processed := PlanDefault(data.groups, sizes, sortBy, groupBy);
    }
    if width > 0.0 && height > 0.0 {
      PlanFacts(data, width, height, sortBy, groupBy, groupOrbits);
    }
  }
}
