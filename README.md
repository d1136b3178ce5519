# OrbitChart layout core in Dafny

OrbitChart draws a radial "orbit" chart. A centre node sits inside a dial with
twelve ticks. Around it are concentric rings (orbits), and each ring carries
the items of one or more groups at computed angles. This project models the
part of the chart with checkable behaviour and proves properties of it.

- **Layout helpers** (`OrbitHelpers`, `helpers.dfy`). These cover
  `valueToRadius`, `sortItems`, `distributeAngles`, `distributeAnglesGrouped`
  and `polarToCartesian`. `Array.prototype.sort` is a stable insertion sort
  driven by the sign of the comparator, and cosine and sine are parameters.
- **Layout planner** (`OrbitLayout`, `layout.dfy`; `OrbitPlanner`,
  `planner.dfy`). These cover the container-derived sizes, the radius
  clamping, and the `processedGroups` plan in both modes:
  - one orbit per group;
  - caller-defined `groupOrbits` buckets sharing one orbit.

  `OrbitLayout` states the plan as functions and proves what every planned
  group satisfies. `OrbitPlanner` runs the `groupOrbits` branch loop by loop,
  pushing into sequences as the component does. It is proved to build exactly
  that plan.
- **Interaction state** (`OrbitInteraction`, `interaction.dfy`). This covers
  the hovered group and item, the selected dial, the tooltip, and the
  `onDialSelect` calls.
  - The handlers are transitions on a `View` value.
  - The class `InteractionState` holds the same state in fields, and its
    methods are proved to perform those transitions.
  - Lemmas cover handler sequences: leave orders, and which dial indices are
    reported.
- **Drawing rules** (`OrbitRender`, `render_rules.dfy`). These cover the dial
  ticks, the ring stroke and opacity fallbacks, the hover scale of an item,
  and the rotation direction and play state of each orbit.
- **Code preview** (`CodePreview`, `code_preview.dfy`). This is the
  documentation sidebar's `generateCodePreview`, which prints a
  `<RadialOrbit … />` snippet for the playground settings.
  - The method builds its lines push by push and is proved to return
    `PreviewText`.
  - Lemmas say which lines appear: exactly the settings that differ from the
    chart's defaults, per a reference table of defaults (`Shown`).
  - Further lemmas say that the lines appear in a fixed order, each at most
    once, that each line begins with the name of what it sets, and that the
    snippet splits back into its lines.

The types of items, groups and datasets live in `OrbitTypes` (`types.dfy`).
The source's `label` fields are called `title` in the model, because `label`
is a Dafny keyword. The source declares `ItemShape` in no file that belongs to
this model, so the code preview holds the item shape as a string.

Numbers are `real`, so there is no IEEE-754 rounding. `Math.PI` is a positive
real constant, and every proof uses only that it is positive.

## Model

| member | source | states |
|---|---|---|
| OrbitTypes.ValuesOf | src/components/RadialOrbit.tsx:125 | the values of the items, one per item, in item order |
| OrbitHelpers.ValueToRadiusDegenerate | src/utils/radial-orbit-helpers.ts:10 | a one-value range maps every value to the midpoint radius, whatever the value |
| OrbitHelpers.ValueToRadiusEndpoints | src/utils/radial-orbit-helpers.ts:11-12 | for a proper range, minValue maps to minRadius and maxValue maps to maxRadius |
| OrbitHelpers.ValueToRadiusMonotone | src/utils/radial-orbit-helpers.ts:11-12 | for minValue < maxValue and minRadius <= maxRadius, the radius does not decrease as the value grows |
| OrbitHelpers.ValueToRadiusWithin | src/utils/radial-orbit-helpers.ts:10-12 | a value inside its range gets a radius inside the radius range |
| OrbitHelpers.ValueToRadiusNotClamped | src/utils/radial-orbit-helpers.ts:11-12 | values above the range are not clamped: they map beyond maxRadius |
| OrbitHelpers.Insert | src/utils/radial-orbit-helpers.ts:22 | inserting an item adds exactly that item to the multiset |
| OrbitHelpers.StableSort | src/utils/radial-orbit-helpers.ts:22 | the sort returns a permutation of its input |
| OrbitHelpers.InsertSorted | src/utils/radial-orbit-helpers.ts:22 | under a consistent comparator, insertion keeps a sorted sequence sorted |
| OrbitHelpers.StableSortSorted | src/utils/radial-orbit-helpers.ts:22 | under a consistent comparator, the sort's output is ordered by it |
| OrbitHelpers.InsertStable | src/utils/radial-orbit-helpers.ts:22 | insertion places the new item after the items that compare equal to it |
| OrbitHelpers.StableSortStable | src/utils/radial-orbit-helpers.ts:22 | stability: items that compare equal keep their input order |
| OrbitHelpers.CompareStringsAntisymmetric | src/utils/radial-orbit-helpers.ts:30 | swapping the strings negates the comparison |
| OrbitHelpers.CompareStringsZero | src/utils/radial-orbit-helpers.ts:30 | the comparison is zero exactly for equal strings |
| OrbitHelpers.CompareStringsTransitive | src/utils/radial-orbit-helpers.ts:30 | the string order is transitive |
| OrbitHelpers.ByValueConsistent | src/utils/radial-orbit-helpers.ts:26 | the highest-value-first comparator meets the contract of Array.prototype.sort |
| OrbitHelpers.ByLabelConsistent | src/utils/radial-orbit-helpers.ts:30 | the label comparator meets the contract of Array.prototype.sort |
| OrbitHelpers.SortItems | src/utils/radial-orbit-helpers.ts:15-34 | every sort mode returns a permutation of the items |
| OrbitHelpers.SortItemsIdentity | src/utils/radial-orbit-helpers.ts:19-33 | an absent sort key, or a string other than "value" and "label", returns the items unchanged |
| OrbitHelpers.SortByValue | src/utils/radial-orbit-helpers.ts:25-27 | "value" gives non-increasing values, and items of equal value keep their input order |
| OrbitHelpers.SortByLabel | src/utils/radial-orbit-helpers.ts:29-31 | "label" gives non-decreasing labels, and items of equal label keep their input order |
| OrbitHelpers.SortByComparator | src/utils/radial-orbit-helpers.ts:21-23 | a consistent caller comparator orders the result, stably |
| OrbitHelpers.DistributeAngles | src/utils/radial-orbit-helpers.ts:36-42 | one angle per item |
| OrbitHelpers.DistributeAnglesSpread | src/utils/radial-orbit-helpers.ts:36-42 | 0 items give [], 1 gives [start], otherwise element i is start + i·2π/count: strictly increasing and below start + 2π |
| OrbitHelpers.DistributeAnglesGrouped | src/utils/radial-orbit-helpers.ts:44-65 | one angle per item |
| OrbitHelpers.GroupedSingleIgnoresSector | src/utils/radial-orbit-helpers.ts:50-51 | one item gives [startAngle], whatever the group index and group count |
| OrbitHelpers.GroupedInsideSector | src/utils/radial-orbit-helpers.ts:53-64 | from two items on, the angles are evenly spaced and strictly increasing, from 10% to 90% of the group's sector |
| OrbitHelpers.GroupedSectorsDisjoint | src/utils/radial-orbit-helpers.ts:53-64 | from two items on, every angle of a lower-indexed group lies strictly below every angle of a higher-indexed one |
| OrbitHelpers.PolarOnCircle | src/utils/radial-orbit-helpers.ts:67-77 | where cos and sin meet the Pythagorean identity, the point lies at the given distance from the centre |
| OrbitLayout.SizesInScaleUnits | src/components/RadialOrbit.tsx:64-78 | in units of min(width, height)/800, the dial sits at 100, the first orbit at 160, orbits are 120 apart and the edge is at 350 |
| OrbitLayout.ClampRadiusBounded | src/components/RadialOrbit.tsx:200-204 | a clamped radius stays between the base orbit and the edge of the drawable area |
| OrbitLayout.DefaultRadiusRule | src/components/RadialOrbit.tsx:197-204 | a truthy override that fits is used as is, otherwise base + index·spacing if that fits, otherwise base + (edge − base) / groupCount · (index + 1); the result always fits, and without an override it is at least the base radius |
| OrbitLayout.OrbitRadiusBounded | src/components/RadialOrbit.tsx:106-111 | every bucket radius fits the drawable area and is at least the base radius |
| OrbitLayout.ClampedRadiiNotMonotone | src/components/RadialOrbit.tsx:107-110 | clamping can put a later orbit inside an earlier one: with five orbits in 800 by 800, orbit 2 lies inside orbit 1 |
| OrbitLayout.MinOf | src/components/RadialOrbit.tsx:207 | no values give +∞; otherwise the result is one of the values and at most all of them |
| OrbitLayout.MaxOf | src/components/RadialOrbit.tsx:208 | no values give −∞; otherwise the result is one of the values and at least all of them |
| OrbitLayout.ValueRangeOfItems | src/components/RadialOrbit.tsx:206-208 | every item value lies within [minValue, maxValue], and both bounds are attained for a non-empty group |
| OrbitLayout.ResolveDefaultFacts | src/components/RadialOrbit.tsx:193-233 | a default-mode group keeps its items as a permutation with one angle each and gets the default radius rule, which fits; with groupBy its angles stay inside its own sector |
| OrbitLayout.PlanDefaultShape | src/components/RadialOrbit.tsx:193-235 | the default mode gives one resolved group per input group, in input order: entry i is group i resolved at index i against the group count, well resolved and fitting the container |
| OrbitLayout.FindGroup | src/components/RadialOrbit.tsx:83-101 | an id lookup finds nothing exactly when no group has that id, and otherwise returns the last group with that id |
| OrbitLayout.KnownGroups | src/components/RadialOrbit.tsx:100-102 | the groups a bucket names come from the dataset, are named by the bucket, and are no more than its ids |
| OrbitLayout.KnownGroupsComplete | src/components/RadialOrbit.tsx:100-102 | every dataset group whose id a bucket names is among the bucket's known groups |
| OrbitLayout.Placed | src/components/RadialOrbit.tsx:130-132 | one placed entry per sorted item |
| OrbitLayout.Slice | src/components/RadialOrbit.tsx:171-174 | within bounds, slice is the sub-sequence between the bounds |
| OrbitLayout.BucketOrbits | src/components/RadialOrbit.tsx:98-155 | one build result per bucket |
| OrbitLayout.FlattenEntries | src/components/RadialOrbit.tsx:168-187 | one resolved group per entry of the orbit |
| OrbitLayout.EntriesLayout | src/components/RadialOrbit.tsx:123-141 | a bucket's entries are its known groups in order; each itemStartIndex is the item count of the groups before it, and the combined items are exactly as many as all entries hold |
| OrbitLayout.SlicesConcatenate | src/components/RadialOrbit.tsx:168-187 | the entries' slices of the shared angles concatenate to the angles they cover |
| OrbitLayout.SliceLengths | src/components/RadialOrbit.tsx:171-174 | each entry's angle slice has exactly one angle per item of the entry |
| OrbitLayout.BuildOrbitShape | src/components/RadialOrbit.tsx:98-155 | a built orbit has known groups, its bucket's index and radius, the entries and items of those groups, and one angle per item |
| OrbitLayout.OrbitLayoutFacts | src/components/RadialOrbit.tsx:98-155 | a built orbit carries its bucket index and shared radius; its entries lie end to end over the combined items, one angle per item, and their slices make up the whole angle sequence |
| OrbitLayout.OrbitEntriesResolved | src/components/RadialOrbit.tsx:168-187 | every entry of a built orbit resolves to a well-resolved group |
| OrbitLayout.OrbitGroups | src/components/RadialOrbit.tsx:168-187 | the resolved groups of one orbit are its bucket's known groups, in bucket order |
| OrbitLayout.OrbitFromBucket | src/components/RadialOrbit.tsx:168-187 | each resolved group of an orbit comes from the dataset, is named by the orbit's bucket and has the bucket's radius |
| OrbitLayout.BucketOrbitsFromBucket | src/components/RadialOrbit.tsx:98-155 | a bucket without known groups builds nothing but keeps its index; every other bucket builds the orbit of its known groups |
| OrbitLayout.PresentFromBucket | src/components/RadialOrbit.tsx:157-189 | flattening lists the known groups bucket after bucket, each from the bucket it was planned in |
| OrbitLayout.PlanBucketsFacts | src/components/RadialOrbit.tsx:82-190 | the groupOrbits plan lists each bucket's known groups in bucket order, so ids not named are absent; each planned group comes from the dataset, shares its bucket's radius (which fits) and is well resolved |
| OrbitLayout.PlanFacts | src/components/RadialOrbit.tsx:80-236 | in either mode, every planned group comes from the dataset, is well resolved and fits the container |
| OrbitPlanner.PushItems | src/components/RadialOrbit.tsx:130-132 | the pushes append the group's placed items |
| OrbitPlanner.CollectBucket | src/components/RadialOrbit.tsx:123-141 | the loop builds the bucket's combined items and entries as the plan specifies |
| OrbitPlanner.BucketRadius | src/components/RadialOrbit.tsx:106-111 | the computed radius is the bucket radius of the plan |
| OrbitPlanner.BuildBucket | src/components/RadialOrbit.tsx:98-155 | one bucket's step builds the orbit the plan specifies for that bucket, and nothing when the bucket names no known group |
| OrbitPlanner.BuildOrbits | src/components/RadialOrbit.tsx:98-155 | the loop builds the orbits of the buckets with known groups, in bucket order |
| OrbitPlanner.FlattenOrbit | src/components/RadialOrbit.tsx:168-187 | the loop appends the orbit's resolved groups |
| OrbitPlanner.FlattenOrbits | src/components/RadialOrbit.tsx:168-186 | the loop lists every orbit's resolved groups, orbit after orbit |
| OrbitPlanner.PlanGroupOrbits | src/components/RadialOrbit.tsx:82-190 | the groupOrbits branch returns exactly the groupOrbits plan |
| OrbitPlanner.ProcessGroups | src/components/RadialOrbit.tsx:80-236 | processedGroups is the plan of the mode that applies, and each group is well resolved and fits the container |
| OrbitInteraction.HoverKey | src/components/RadialOrbit.tsx:242 | `x?.id \|\| null` is present exactly for a present, non-empty id |
| OrbitInteraction.FirstMeta | src/components/RadialOrbit.tsx:276-277 | the first three meta entries, or all of them when there are fewer |
| OrbitInteraction.InitialView | src/components/RadialOrbit.tsx:54-62 | the initial state is valid: nothing hovered or selected, the tooltip hidden |
| OrbitInteraction.GroupHover | src/components/RadialOrbit.tsx:238-258 | the hovered group becomes the group's key; with a group and an event, the tooltip shows the title and item count at the pointer, otherwise it is hidden; the rest is unchanged |
| OrbitInteraction.ItemHover | src/components/RadialOrbit.tsx:260-291 | the hovered item becomes the item's key; with an item and an event, the tooltip shows title, value and the first three meta entries (all of them when there are fewer); otherwise it is hidden only when no group is hovered |
| OrbitInteraction.DialClick | src/components/RadialOrbit.tsx:293-296 | the dial becomes selected, and onDialSelect receives the index once when supplied |
| OrbitInteraction.ItemLeaveKeepsGroupTooltip | src/components/RadialOrbit.tsx:288-290 | leaving an item while its group is hovered keeps the tooltip visible and unchanged |
| OrbitInteraction.GroupLeaveThenItemLeave | src/components/RadialOrbit.tsx:255-290 | a group leave followed by an item leave leaves the tooltip hidden and nothing hovered |
| OrbitInteraction.Run | src/components/RadialOrbit.tsx:238-296 | any sequence of handler calls keeps the state valid |
| OrbitInteraction.RunDialSelections | src/components/RadialOrbit.tsx:293-296 | over any run, onDialSelect receives exactly the clicked dial indices in click order, and only when supplied |
| OrbitInteraction.RunSelectedDial | src/components/RadialOrbit.tsx:293-296 | after a run, the selected dial is the last one clicked, or the earlier selection when none was clicked |
| OrbitInteraction.InteractionState.constructor | src/components/RadialOrbit.tsx:54-62 | the fields start as the initial state |
| OrbitInteraction.InteractionState.HandleGroupHover | src/components/RadialOrbit.tsx:238-258 | updating the fields in place performs the group-hover transition and keeps them valid |
| OrbitInteraction.InteractionState.HandleItemHover | src/components/RadialOrbit.tsx:260-291 | updating the fields in place performs the item-hover transition and keeps them valid |
| OrbitInteraction.InteractionState.HandleDialClick | src/components/RadialOrbit.tsx:293-296 | updating the fields in place performs the dial-click transition and keeps them valid |
| OrbitRender.DialTicks | src/components/RadialOrbit.tsx:298-305 | twelve ticks indexed 0 to 11, each crossing the dial circle |
| OrbitRender.DialTickAngles | src/components/RadialOrbit.tsx:300 | tick i points at i·π/6 − π/2, so the ticks start straight up and cover one turn |
| OrbitRender.DialTickOnCircles | src/components/RadialOrbit.tsx:301-302 | a tick's ends lie 10 units inside and outside the dial circle |
| OrbitRender.OrElse | src/components/RadialOrbit.tsx:369-373 | `??` keeps a present value and falls back otherwise |
| OrbitRender.RingHoveredCases | src/components/RadialOrbit.tsx:367-373 | a shared ring is hovered exactly when one of its groups is the hovered group, which for a ring of one group (the test at line 411) means exactly when that group is hovered; nothing hovered leaves every ring idle |
| OrbitRender.RingStyleFallbacks | src/components/RadialOrbit.tsx:411-417 | a hover value wins; otherwise the hovered ring falls back to the idle value, then to 3 and 0.9; the idle ring uses its value or 2 and 0.7 |
| OrbitRender.ItemScale | src/components/RadialOrbit.tsx:549-550 | an item at rest has scale 1; a hovered item, or one in a hovered group, takes the hover scale, where a missing or zero scale is 1.1 |
| OrbitRender.RotationOf | src/components/RadialOrbit.tsx:525-527 | an orbit has a rotation exactly when orbitRotation is on; a missing flag counts as off |
| OrbitRender.RotationAlternates | src/components/RadialOrbit.tsx:526 | neighbouring orbits turn at the same speed in opposite directions, and even orbits turn like orbit 0 |
| OrbitRender.PlayStateOf | src/components/RadialOrbit.tsx:528 | an orbit runs exactly when rotation is on and none of its items is hovered |
| CodePreview.AnimationShownIffField | src/documentation_components/CodePreviewSidebar.tsx:82-107 | the animation block shows exactly when one of its fields differs from its default |
| CodePreview.PathsShownIffField | src/documentation_components/CodePreviewSidebar.tsx:132-156 | the orbitPaths block shows exactly when one of its fields differs from its default |
| CodePreview.ColorsShownIffField | src/documentation_components/CodePreviewSidebar.tsx:159-177 | the colors block shows exactly when one of its fields differs from its default |
| CodePreview.Render | src/documentation_components/CodePreviewSidebar.tsx:49-177 | one line per key, the text of that key's line |
| CodePreview.Split | src/documentation_components/CodePreviewSidebar.tsx:179 | the inverse of this newline join, used only to state that the join loses nothing (the program itself never splits): it yields at least one piece, and `SplitJoin` shows it undoes the join |
| CodePreview.SplitJoin | src/documentation_components/CodePreviewSidebar.tsx:179 | splitting a newline join of newline-free lines gives the lines back |
| CodePreview.PreviewInOrder | src/documentation_components/CodePreviewSidebar.tsx:49-179 | lines come in the fixed order data, sizes, sortableBy, handlers, itemShape, renderItem, animation, groupBy, groupOrbits, orbitPaths, colors, so none is printed twice |
| CodePreview.PreviewShowsCustomised | src/documentation_components/CodePreviewSidebar.tsx:49-177 | a line for a prop or field appears exactly when the defaults table says so: fixed props always, other settings when they differ from their default, blocks when one of their fields does |
| CodePreview.LineLabelled | src/documentation_components/CodePreviewSidebar.tsx:53-171 | every line begins with the name of the prop or field it sets |
| CodePreview.FixedPropsAlwaysPrinted | src/documentation_components/CodePreviewSidebar.tsx:53-69 | the data line comes first, and sortableBy and the three handler lines are always printed |
| CodePreview.BucketTextUniform | src/documentation_components/CodePreviewSidebar.tsx:115-129 | the `[]` special cases print what the general bracketed join would |
| CodePreview.PreviewSplitsIntoLines | src/documentation_components/CodePreviewSidebar.tsx:179 | the snippet is `<RadialOrbit`, the prop lines and `/>`, one per line, when no printed value holds a line break |
| CodePreview.PushWhen | src/documentation_components/CodePreviewSidebar.tsx:56-61 | a conditional push appends the key's line exactly when the condition holds |
| CodePreview.SizeProps | src/documentation_components/CodePreviewSidebar.tsx:53-61 | the data line, then width and height lines exactly when they differ from 800 |
| CodePreview.FixedProps | src/documentation_components/CodePreviewSidebar.tsx:53-69 | the size lines followed by the sortableBy and handler lines |
| CodePreview.HeadProps | src/documentation_components/CodePreviewSidebar.tsx:53-79 | the props before the animation block: `Render` of the head keys that `PreviewKeys` begins with |
| CodePreview.MotionProps | src/documentation_components/CodePreviewSidebar.tsx:82-91 | the rotation, speed and hover-scale fields that differ from their defaults |
| CodePreview.AnimationProps | src/documentation_components/CodePreviewSidebar.tsx:81-101 | the animation fields that differ from their defaults; an empty orbits list prints `orbits: []` |
| CodePreview.GroupingProps | src/documentation_components/CodePreviewSidebar.tsx:109-129 | the groupBy line when set, and the groupOrbits line when given |
| CodePreview.StrokeProps | src/documentation_components/CodePreviewSidebar.tsx:131-141 | the show, stroke-width and dash fields that differ from their defaults |
| CodePreview.PathProps | src/documentation_components/CodePreviewSidebar.tsx:131-150 | the orbit-path fields that differ from their defaults |
| CodePreview.BackdropProps | src/documentation_components/CodePreviewSidebar.tsx:158-164 | the background and ring fields that differ from their defaults |
| CodePreview.ColorProps | src/documentation_components/CodePreviewSidebar.tsx:158-171 | the colour fields that differ from their defaults |
| CodePreview.PushBlock | src/documentation_components/CodePreviewSidebar.tsx:103-107 | a block is pushed as its opening line, its fields and `}}` when it has fields, and not at all otherwise |
| CodePreview.FrontProps | src/documentation_components/CodePreviewSidebar.tsx:49-129 | the props up to groupOrbits: `Render` of the keys `PreviewKeys` lists up to `GroupOrbits` |
| CodePreview.StyledProps | src/documentation_components/CodePreviewSidebar.tsx:49-156 | the props up to the orbitPaths block: `Render` of the keys `PreviewKeys` lists up to that block's closing line |
| CodePreview.PreviewProps | src/documentation_components/CodePreviewSidebar.tsx:49-177 | the whole props array: `Render(PreviewKeys(s))` |
| CodePreview.GenerateCodePreview | src/documentation_components/CodePreviewSidebar.tsx:49-180 | the returned code is the specified snippet: `<RadialOrbit\n`, the prop lines joined by newlines, and `\n/>` |

## Left out

- The drawing is not modelled: SVG and JSX elements, CSS keyframes, glow filters, gradients, image and text placement, and the tooltip's markup (src/components/RadialOrbit.tsx:307-684). Only the values they draw with are modelled.
- Trigonometry is not modelled. `Math.cos` and `Math.sin` are parameters; the lemmas assume only the Pythagorean identity where they need it.
- Numbers are exact reals, so IEEE-754 rounding, `NaN` and infinities in arithmetic are not modelled. `Math.min()` and `Math.max()` of no values are explicit infinities.
- `localeCompare` is replaced by a character-code lexicographic order, proved to be a total order. Locale rules are not modelled.
- For a caller comparator that breaks the contract of `Array.prototype.sort`, JavaScript leaves the order to the engine. The model gives the insertion-sort order, and its properties are proved only for consistent comparators.
- `useMemo` caching and `useState` batching are not modelled, and neither is the stale read of `hoveredGroup` in `handleItemHover` when two handlers run in one render. The handlers are sequential transitions on the current state.
- The rings' hard-coded colours for the ids 'finance', 'company-stack' and 'shadow-it' are not modelled (src/components/RadialOrbit.tsx:359-365, 403-409). They are presentation for one demo dataset.
- The `groupOrbits` rings are not modelled as a map from radius to groups (src/components/RadialOrbit.tsx:349-357). `OrbitRender.RingHovered` states only the hover test, for one group per ring or for any group sharing a ring, and `OrbitRender.RingHoveredCases` proves both cases.
- The `renderItem` callback, the `onGroupSelect` and `onItemSelect` calls and the mouse-event objects are not modelled. A pointer is the pair of its client coordinates.
- How the code preview prints a number (`${n}`) is a parameter `num`, so number formatting is not modelled.
- The clipboard copy and the sidebar layout are not modelled (src/documentation_components/CodePreviewSidebar.tsx:184-333).
- src/App.tsx is demo wiring and logging, and is not part of this model.
- src/types/radial-orbit.ts holds declarations only. It shapes the datatypes. `ItemShape` is declared in no file of this model, so the item shape is a string.
- The animation's `orbits` list, when given, has no effect in the component's rotation code (src/components/RadialOrbit.tsx:524-528), so every orbit rotates when rotation is on. The model follows the code.
- OrbitHelpers.DistributeAnglesGrouped requires `totalGroups > 0` from two items on. With zero groups the source divides by zero, and every caller passes a positive count.
- OrbitHelpers.GroupedSingleIgnoresSector follows the code: one item is placed at `startAngle` (src/utils/radial-orbit-helpers.ts:51), not at `sectorStart + padding` where the first of two or more items goes (src/utils/radial-orbit-helpers.ts:63), so every single-item group in `groupBy` mode lands on the same angle.
- OrbitRender.RotationOf requires a speed whenever rotation is on, as the source presumes through TypeScript's non-null assertion `!`, which is not checked at run time. The `rotate NaNs` string that a missing speed would produce is not modelled.
