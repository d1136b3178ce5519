/**
 * The layout helpers of the orbit chart (src/utils/radial-orbit-helpers.ts):
 * value-to-radius interpolation, item ordering, the two angle distributions
 * and the polar-to-Cartesian conversion. All of them are pure.
 */
module OrbitHelpers {
  import opened OrbitTypes

  /** Math.PI. The proofs only use that it is positive. */
  const PI: real := 3.141592653589793

  /** A full turn, `Math.PI * 2`. */
  const TAU: real := PI * 2.0

  // ---------------------------------------------------------------------------
  // valueToRadius
  // ---------------------------------------------------------------------------

  /** Linear interpolation of `value` from [minValue, maxValue] onto [minRadius, maxRadius], without clamping. */
  function ValueToRadius(value: real, minValue: real, maxValue: real, minRadius: real := 8.0, maxRadius: real := 32.0): real
  {
    if maxValue == minValue then (minRadius + maxRadius) / 2.0
    else
      var normalized := (value - minValue) / (maxValue - minValue);
      minRadius + normalized * (maxRadius - minRadius)
  }

  /** A one-value range never divides by zero: every value gets the midpoint radius. */
  lemma ValueToRadiusDegenerate(value: real, v: real, minRadius: real, maxRadius: real)
    ensures ValueToRadius(value, v, v, minRadius, maxRadius) == (minRadius + maxRadius) / 2.0
  {
  }

  /** The ends of the value range go to the ends of the radius range. */
  lemma ValueToRadiusEndpoints(minValue: real, maxValue: real, minRadius: real, maxRadius: real)
    requires minValue != maxValue
    ensures ValueToRadius(minValue, minValue, maxValue, minRadius, maxRadius) == minRadius
    ensures ValueToRadius(maxValue, minValue, maxValue, minRadius, maxRadius) == maxRadius
  {
    var d := maxValue - minValue;
    assert (maxValue - minValue) / d == 1.0;
    assert (minValue - minValue) / d == 0.0;
  }

  /** For a proper range and minRadius <= maxRadius the map is non-decreasing in the value. */
  lemma ValueToRadiusMonotone(v1: real, v2: real, minValue: real, maxValue: real, minRadius: real, maxRadius: real)
    requires minValue < maxValue && minRadius <= maxRadius && v1 <= v2
    ensures ValueToRadius(v1, minValue, maxValue, minRadius, maxRadius) <= ValueToRadius(v2, minValue, maxValue, minRadius, maxRadius)
  {
    var d := maxValue - minValue;
    var n1 := (v1 - minValue) / d;
    var n2 := (v2 - minValue) / d;
    assert n1 * d == v1 - minValue;
    assert n2 * d == v2 - minValue;
    assert n1 <= n2;
    MulMonotone(n1, n2, maxRadius - minRadius);
  }

  lemma MulMonotone(a: real, b: real, k: real)
    requires a <= b && 0.0 <= k
    ensures a * k <= b * k
  {
    assert b * k - a * k == (b - a) * k;
  }

  /** A value inside its range gets a radius inside the radius range. */
  lemma ValueToRadiusWithin(value: real, minValue: real, maxValue: real, minRadius: real, maxRadius: real)
    requires minValue <= value <= maxValue && minRadius <= maxRadius
    ensures minRadius <= ValueToRadius(value, minValue, maxValue, minRadius, maxRadius) <= maxRadius
  {
    if minValue != maxValue {
      ValueToRadiusEndpoints(minValue, maxValue, minRadius, maxRadius);
      ValueToRadiusMonotone(minValue, value, minValue, maxValue, minRadius, maxRadius);
      ValueToRadiusMonotone(value, maxValue, minValue, maxValue, minRadius, maxRadius);
    }
  }

  /** Values above the range are not clamped: they map beyond maxRadius. */
  lemma ValueToRadiusNotClamped(value: real, minValue: real, maxValue: real, minRadius: real, maxRadius: real)
    requires minValue < maxValue < value && minRadius < maxRadius
    ensures ValueToRadius(value, minValue, maxValue, minRadius, maxRadius) > maxRadius
  {
    var d := maxValue - minValue;
    var n := (value - minValue) / d;
    assert n * d == value - minValue;
    assert n > 1.0 by {
      if n <= 1.0 {
        MulMonotone(n, 1.0, d);
      }
    }
    assert n * (maxRadius - minRadius) - (maxRadius - minRadius) == (n - 1.0) * (maxRadius - minRadius);
  }

  // ---------------------------------------------------------------------------
  // Comparators and the stable sort behind Array.prototype.sort
  // ---------------------------------------------------------------------------

  /** A sort comparator: a negative result puts the first argument first. */
  type Comparator = (Item, Item) -> real

  /** Swapping the arguments flips the comparator's sign. */
  ghost predicate SignsAgree(cmp: Comparator, a: Item, b: Item)
  {
    cmp(a, b) < 0.0 <==> cmp(b, a) > 0.0
  }

  /** "Not after" is transitive at a, b, c. */
  ghost predicate TransitiveAt(cmp: Comparator, a: Item, b: Item, c: Item)
  {
    cmp(a, b) <= 0.0 && cmp(b, c) <= 0.0 ==> cmp(a, c) <= 0.0
  }

  /** The comparator obeys the contract of Array.prototype.sort: consistent signs and a transitive order. */
  ghost predicate Consistent(cmp: Comparator)
  {
    && (forall a, b :: SignsAgree(cmp, a, b))
    && (forall a, b, c :: TransitiveAt(cmp, a, b, c))
  }

  ghost predicate SortedBy(s: seq<Item>, cmp: Comparator)
  {
    forall i, j :: 0 <= i < j < |s| ==> cmp(s[i], s[j]) <= 0.0
  }

  /** Inserts `x` after every element that does not compare strictly greater than it. */
  function Insert(x: Item, s: seq<Item>, cmp: Comparator): (r: seq<Item>)
    ensures multiset(r) == multiset(s) + multiset{x}
  {
    if s == [] then [x]
    else if cmp(x, s[0]) < 0.0 then [x] + s
    else
      assert s == [s[0]] + s[1..];
      [s[0]] + Insert(x, s[1..], cmp)
  }

  /**
   * The order Array.prototype.sort produces (stable since ES2019): an insertion
   * sort that places each element after the equal elements before it.
   */
  function StableSort(s: seq<Item>, cmp: Comparator): (r: seq<Item>)
    ensures multiset(r) == multiset(s)
    ensures |r| == |s|
  {
    if s == [] then []
    else
      assert multiset(s) == multiset(s[..|s| - 1]) + multiset{s[|s| - 1]} by {
        assert s == s[..|s| - 1] + [s[|s| - 1]];
      }
      Insert(s[|s| - 1], StableSort(s[..|s| - 1], cmp), cmp)
  }

  lemma {:induction false} InsertSorted(x: Item, s: seq<Item>, cmp: Comparator)
    requires Consistent(cmp) && SortedBy(s, cmp)
    ensures SortedBy(Insert(x, s, cmp), cmp)
  {
    if s == [] {
    } else if cmp(x, s[0]) < 0.0 {
      PrependSorted(x, s, cmp);
    } else {
      assert SortedBy(s[1..], cmp);
      InsertSorted(x, s[1..], cmp);
      var tail := Insert(x, s[1..], cmp);
      assert SignsAgree(cmp, x, s[0]);
      forall y | y in multiset(tail) ensures cmp(s[0], y) <= 0.0 {
        if y != x {
          assert y in multiset(s[1..]);
          var k :| 0 <= k < |s[1..]| && s[1..][k] == y;
          assert s[k + 1] == y;
        }
      }
      ConsSorted(s[0], tail, cmp);
    }
  }

  /** A head that is strictly below a sorted sequence's head keeps it sorted. */
  lemma PrependSorted(x: Item, s: seq<Item>, cmp: Comparator)
    requires Consistent(cmp) && SortedBy(s, cmp) && s != [] && cmp(x, s[0]) < 0.0
    ensures SortedBy([x] + s, cmp)
  {
    var r := [x] + s;
    forall i, j | 0 <= i < j < |r| ensures cmp(r[i], r[j]) <= 0.0 {
      if i == 0 {
        if j > 1 {
          assert cmp(s[0], s[j - 1]) <= 0.0;
          assert TransitiveAt(cmp, x, s[0], s[j - 1]);
        }
      } else {
        assert r[i] == s[i - 1] && r[j] == s[j - 1];
      }
    }
  }

  /** A head that is not after any element of a sorted sequence keeps it sorted. */
  lemma ConsSorted(h: Item, t: seq<Item>, cmp: Comparator)
    requires SortedBy(t, cmp) && forall y :: y in multiset(t) ==> cmp(h, y) <= 0.0
    ensures SortedBy([h] + t, cmp)
  {
    var r := [h] + t;
    forall i, j | 0 <= i < j < |r| ensures cmp(r[i], r[j]) <= 0.0 {
      if i == 0 {
        assert r[j] in multiset(t);
      } else {
        assert r[i] == t[i - 1] && r[j] == t[j - 1];
      }
    }
  }

  /** For a consistent comparator the sort is ordered by it. */
  lemma {:induction false} StableSortSorted(s: seq<Item>, cmp: Comparator)
    requires Consistent(cmp)
    ensures SortedBy(StableSort(s, cmp), cmp)
  {
    if s != [] {
      StableSortSorted(s[..|s| - 1], cmp);
      InsertSorted(s[|s| - 1], StableSort(s[..|s| - 1], cmp), cmp);
    }
  }

  /** The elements of `s` that compare equal to `e`, in their order in `s`. */
  function EqualTo(s: seq<Item>, e: Item, cmp: Comparator): seq<Item>
  {
    if s == [] then []
    else (if cmp(s[0], e) == 0.0 then [s[0]] else []) + EqualTo(s[1..], e, cmp)
  }

  lemma {:induction false} EqualToAppend(a: seq<Item>, b: seq<Item>, e: Item, cmp: Comparator)
    ensures EqualTo(a + b, e, cmp) == EqualTo(a, e, cmp) + EqualTo(b, e, cmp)
  {
    if a != [] {
      var head := if cmp(a[0], e) == 0.0 then [a[0]] else [];
      assert (a + b)[1..] == a[1..] + b;
      assert (a + b)[0] == a[0];
      EqualToAppend(a[1..], b, e, cmp);
      calc {
        EqualTo(a + b, e, cmp);
        head + EqualTo(a[1..] + b, e, cmp);
        head + (EqualTo(a[1..], e, cmp) + EqualTo(b, e, cmp));
        (head + EqualTo(a[1..], e, cmp)) + EqualTo(b, e, cmp);
      }
    } else {
      assert a + b == b;
    }
  }

  /** Past a head that is strictly greater than `x`, a sorted sequence stays strictly greater than `x`. */
  lemma StrictlyBelowAll(x: Item, s: seq<Item>, cmp: Comparator, k: nat)
    requires Consistent(cmp) && SortedBy(s, cmp) && k < |s| && cmp(x, s[0]) < 0.0
    ensures cmp(x, s[k]) < 0.0
  {
    if k > 0 {
      assert cmp(s[0], s[k]) <= 0.0;
      assert SignsAgree(cmp, x, s[0]);
      assert TransitiveAt(cmp, s[0], s[k], x);
      assert SignsAgree(cmp, x, s[k]);
    }
  }

  lemma {:induction false} EqualToNone(x: Item, s: seq<Item>, e: Item, cmp: Comparator)
    requires Consistent(cmp) && SortedBy(s, cmp) && s != [] && cmp(x, s[0]) < 0.0 && cmp(x, e) == 0.0
    ensures EqualTo(s, e, cmp) == []
    decreases |s|
  {
    assert SignsAgree(cmp, x, s[0]);
    assert SignsAgree(cmp, x, e);
    assert SignsAgree(cmp, e, x);
    assert TransitiveAt(cmp, s[0], e, x);
    assert cmp(s[0], e) > 0.0;
    if |s| > 1 {
      assert SortedBy(s[1..], cmp);
      StrictlyBelowAll(x, s, cmp, 1);
      EqualToNone(x, s[1..], e, cmp);
    }
  }

  lemma {:induction false} InsertStable(x: Item, s: seq<Item>, e: Item, cmp: Comparator)
    requires Consistent(cmp) && SortedBy(s, cmp)
    ensures EqualTo(Insert(x, s, cmp), e, cmp) == EqualTo(s, e, cmp) + (if cmp(x, e) == 0.0 then [x] else [])
    decreases |s|
  {
    if s == [] {
      EqualToCons(x, [], e, cmp);
    } else if cmp(x, s[0]) < 0.0 {
      InsertStableFront(x, s, e, cmp);
    } else {
      assert SortedBy(s[1..], cmp);
      InsertStable(x, s[1..], e, cmp);
      InsertStableStep(x, s, e, cmp);
    }
  }

  /** Inserting in front of a sorted sequence whose head is strictly greater. */
  lemma InsertStableFront(x: Item, s: seq<Item>, e: Item, cmp: Comparator)
    requires Consistent(cmp) && SortedBy(s, cmp) && s != [] && cmp(x, s[0]) < 0.0
    ensures EqualTo(Insert(x, s, cmp), e, cmp) == EqualTo(s, e, cmp) + (if cmp(x, e) == 0.0 then [x] else [])
  {
    EqualToCons(x, s, e, cmp);
    if cmp(x, e) == 0.0 {
      EqualToNone(x, s, e, cmp);
    }
  }

  /** Inserting past the head: the head's share comes first, then the insertion into the rest. */
  lemma InsertStableStep(x: Item, s: seq<Item>, e: Item, cmp: Comparator)
    requires s != [] && !(cmp(x, s[0]) < 0.0)
    requires EqualTo(Insert(x, s[1..], cmp), e, cmp) == EqualTo(s[1..], e, cmp) + (if cmp(x, e) == 0.0 then [x] else [])
    ensures EqualTo(Insert(x, s, cmp), e, cmp) == EqualTo(s, e, cmp) + (if cmp(x, e) == 0.0 then [x] else [])
  {
    EqualToCons(s[0], Insert(x, s[1..], cmp), e, cmp);
    EqualToCons(s[0], s[1..], e, cmp);
    assert [s[0]] + s[1..] == s;
  }

  lemma EqualToCons(h: Item, t: seq<Item>, e: Item, cmp: Comparator)
    ensures EqualTo([h] + t, e, cmp) == (if cmp(h, e) == 0.0 then [h] else []) + EqualTo(t, e, cmp)
  {
    assert ([h] + t)[1..] == t;
  }

  /** Stability: the elements that compare equal to any `e` keep their input order. */
  lemma {:induction false} StableSortStable(s: seq<Item>, e: Item, cmp: Comparator)
    requires Consistent(cmp)
    ensures EqualTo(StableSort(s, cmp), e, cmp) == EqualTo(s, e, cmp)
    decreases |s|
  {
    if s != [] {
      var init, last := s[..|s| - 1], s[|s| - 1];
      var tail := if cmp(last, e) == 0.0 then [last] else [];
      assert s == init + [last];
      calc {
        EqualTo(StableSort(s, cmp), e, cmp);
        { StableSortLast(s, cmp); }
        EqualTo(Insert(last, StableSort(init, cmp), cmp), e, cmp);
        { InsertIntoSortedStable(last, init, e, cmp); }
        EqualTo(StableSort(init, cmp), e, cmp) + tail;
        { StableSortStable(init, e, cmp); }
        EqualTo(init, e, cmp) + tail;
        { EqualToSnoc(init, last, e, cmp); }
        EqualTo(init + [last], e, cmp);
      }
    }
  }

  lemma StableSortLast(s: seq<Item>, cmp: Comparator)
    requires s != []
    ensures StableSort(s, cmp) == Insert(s[|s| - 1], StableSort(s[..|s| - 1], cmp), cmp)
  {
  }

  lemma InsertIntoSortedStable(x: Item, s: seq<Item>, e: Item, cmp: Comparator)
    requires Consistent(cmp)
    ensures EqualTo(Insert(x, StableSort(s, cmp), cmp), e, cmp) == EqualTo(StableSort(s, cmp), e, cmp) + (if cmp(x, e) == 0.0 then [x] else [])
  {
    StableSortSorted(s, cmp);
    InsertStable(x, StableSort(s, cmp), e, cmp);
  }

  lemma EqualToSnoc(init: seq<Item>, last: Item, e: Item, cmp: Comparator)
    ensures EqualTo(init + [last], e, cmp) == EqualTo(init, e, cmp) + (if cmp(last, e) == 0.0 then [last] else [])
  {
    assert EqualTo([last], e, cmp) == (if cmp(last, e) == 0.0 then [last] else []) by {
      assert [last][1..] == [];
    }
    EqualToAppend(init, [last], e, cmp);
  }

  // ---------------------------------------------------------------------------
  // String order standing in for localeCompare
  // ---------------------------------------------------------------------------

  /** Lexicographic comparison by character code: negative, zero or positive. */
  function CompareStrings(a: string, b: string): int
  {
    if a == [] && b == [] then 0
    else if a == [] then -1
    else if b == [] then 1
    else if a[0] < b[0] then -1
    else if a[0] > b[0] then 1
    else CompareStrings(a[1..], b[1..])
  }

  lemma {:induction false} CompareStringsAntisymmetric(a: string, b: string)
    ensures CompareStrings(a, b) == -CompareStrings(b, a)
  {
    if a != [] && b != [] && a[0] == b[0] {
      CompareStringsAntisymmetric(a[1..], b[1..]);
    }
  }

  lemma {:induction false} CompareStringsZero(a: string, b: string)
    ensures CompareStrings(a, b) == 0 <==> a == b
  {
    if a != [] && b != [] && a[0] == b[0] {
      CompareStringsZero(a[1..], b[1..]);
      if a[1..] == b[1..] {
        assert a == [a[0]] + a[1..] && b == [b[0]] + b[1..];
      }
    }
  }

  lemma {:induction false} CompareStringsTransitive(a: string, b: string, c: string)
    requires CompareStrings(a, b) <= 0 && CompareStrings(b, c) <= 0
    ensures CompareStrings(a, c) <= 0
  {
    if a != [] && b != [] && c != [] && a[0] == b[0] && b[0] == c[0] {
      CompareStringsTransitive(a[1..], b[1..], c[1..]);
    }
  }

  // ---------------------------------------------------------------------------
  // sortItems
  // ---------------------------------------------------------------------------

  /** The `sortBy` argument: absent, a string, or a caller comparator. */
  datatype SortMode = Unset | Named(name: string) | Custom(compare: Comparator)

  /** `(a, b) => b.value - a.value`: highest value first. */
  function ByValueDescending(a: Item, b: Item): real
  {
    b.value - a.value
  }

  /** `(a, b) => a.label.localeCompare(b.label)`, with `label` held in the `title` field. */
  function ByLabel(a: Item, b: Item): real
  {
    CompareStrings(a.title, b.title) as real
  }

  lemma ByValueConsistent()
    ensures Consistent(ByValueDescending)
  {
    forall a, b ensures SignsAgree(ByValueDescending, a, b) {
    }
    forall a, b, c ensures TransitiveAt(ByValueDescending, a, b, c) {
    }
  }

  lemma ByLabelConsistent()
    ensures Consistent(ByLabel)
  {
    forall a, b ensures SignsAgree(ByLabel, a, b) {
      CompareStringsAntisymmetric(a.title, b.title);
    }
    forall a, b, c ensures TransitiveAt(ByLabel, a, b, c) {
      if ByLabel(a, b) <= 0.0 && ByLabel(b, c) <= 0.0 {
        CompareStringsTransitive(a.title, b.title, c.title);
      }
    }
  }

  /** Orders a copy of `items`; a missing, empty or unrecognised `sortBy` returns the items unchanged. */
  function SortItems(items: seq<Item>, sortBy: SortMode): (r: seq<Item>)
    ensures multiset(r) == multiset(items)
  {
    match sortBy
    case Unset => items
    case Custom(cmp) => StableSort(items, cmp)
    case Named(name) =>
      if name == "" then items
      else if name == "value" then StableSort(items, ByValueDescending)
      else if name == "label" then StableSort(items, ByLabel)
      else items
  }

  /** No sort key, or a string other than "value" and "label", keeps the caller's order. */
  lemma SortItemsIdentity(items: seq<Item>, sortBy: SortMode)
    requires sortBy.Unset? || (sortBy.Named? && sortBy.name != "value" && sortBy.name != "label")
    ensures SortItems(items, sortBy) == items
  {
  }

  /** Sorting by "value" gives non-increasing values, and items of equal value keep their input order. */
  lemma SortByValue(items: seq<Item>, e: Item)
    ensures var r := SortItems(items, Named("value"));
      && (forall i, j :: 0 <= i < j < |r| ==> r[i].value >= r[j].value)
      && EqualTo(r, e, ByValueDescending) == EqualTo(items, e, ByValueDescending)
  {
    ByValueConsistent();
    StableSortSorted(items, ByValueDescending);
    StableSortStable(items, e, ByValueDescending);
    var r := SortItems(items, Named("value"));
    forall i, j | 0 <= i < j < |r| ensures r[i].value >= r[j].value {
      assert ByValueDescending(r[i], r[j]) <= 0.0;
    }
  }

  /** Sorting by "label" gives non-decreasing titles, and items of equal title keep their input order. */
  lemma SortByLabel(items: seq<Item>, e: Item)
    ensures var r := SortItems(items, Named("label"));
      && (forall i, j :: 0 <= i < j < |r| ==> CompareStrings(r[i].title, r[j].title) <= 0)
      && EqualTo(r, e, ByLabel) == EqualTo(items, e, ByLabel)
  {
    ByLabelConsistent();
    StableSortSorted(items, ByLabel);
    StableSortStable(items, e, ByLabel);
    var r := SortItems(items, Named("label"));
    forall i, j | 0 <= i < j < |r| ensures CompareStrings(r[i].title, r[j].title) <= 0 {
      assert ByLabel(r[i], r[j]) <= 0.0;
    }
  }

  /** A consistent caller comparator orders the result, stably. */
  lemma SortByComparator(items: seq<Item>, cmp: Comparator, e: Item)
    requires Consistent(cmp)
    ensures SortedBy(SortItems(items, Custom(cmp)), cmp)
    ensures EqualTo(SortItems(items, Custom(cmp)), e, cmp) == EqualTo(items, e, cmp)
  {
    StableSortSorted(items, cmp);
    StableSortStable(items, e, cmp);
  }

  // ---------------------------------------------------------------------------
  // Angle distribution
  // ---------------------------------------------------------------------------

  /** `count` angles spaced by a full turn over `count`, from `startAngle`. */
  function DistributeAngles(count: nat, startAngle: real := 0.0): (r: seq<real>)
    ensures |r| == count
  {
    if count == 0 then []
    else if count == 1 then [startAngle]
    else
      var angleStep := TAU / count as real;
      seq(count, i => startAngle + i as real * angleStep)
  }

  /** The angles start at `startAngle`, increase strictly by a constant step and stay below one full turn. */
  lemma DistributeAnglesSpread(count: nat, startAngle: real)
    ensures var r := DistributeAngles(count, startAngle);
      && (count > 0 ==> r[0] == startAngle)
      && (forall i :: 0 <= i < count ==> startAngle <= r[i] < startAngle + TAU)
      && (forall i :: 0 <= i < count - 1 ==> r[i + 1] - r[i] == TAU / count as real)
      && (forall i, j :: 0 <= i < j < count ==> r[i] < r[j])
  {
    if count >= 2 {
      var r := DistributeAngles(count, startAngle);
      var step := TAU / count as real;
      DivPositive(TAU, count);
      MulDiv(TAU, count);
      assert forall i :: 0 <= i < count ==> r[i] == Term(startAngle, step, i);
      Progression(startAngle, step, count);
      TermNext(startAngle, step, count - 1);
      assert Term(startAngle, step, count) == startAngle + TAU;
    }
  }

  /**
   * The angles of one group confined to its sector of a full turn, with a 10%
   * padding at both ends; a single item is placed at `startAngle`, outside the sector logic.
   */
  function DistributeAnglesGrouped(count: nat, groupIndex: nat, totalGroups: nat, startAngle: real := 0.0): (r: seq<real>)
    requires count < 2 || totalGroups > 0
    ensures |r| == count
  {
    if count == 0 then []
    else if count == 1 then [startAngle]
    else
      var sectorSize := TAU / totalGroups as real;
      var sectorStart := startAngle + groupIndex as real * sectorSize;
      var padding := sectorSize * 0.1;
      var availableAngle := sectorSize - padding * 2.0;
      var angleStep := if count > 1 then availableAngle / (count - 1) as real else 0.0;
      seq(count, i => sectorStart + padding + i as real * angleStep)
  }

  /** The sector reserved for group `groupIndex` starts here. */
  function SectorStart(groupIndex: nat, totalGroups: nat, startAngle: real): real
    requires totalGroups > 0
  {
    startAngle + groupIndex as real * (TAU / totalGroups as real)
  }

  /** With one item the sector is ignored: the result is `[startAngle]` for every group. */
  lemma GroupedSingleIgnoresSector(groupIndex: nat, totalGroups: nat, startAngle: real)
    ensures DistributeAnglesGrouped(1, groupIndex, totalGroups, startAngle) == [startAngle]
  {
  }

  lemma DivPositive(x: real, k: nat)
    requires x > 0.0 && k > 0
    ensures x / k as real > 0.0
  {
  }

  lemma MulDiv(x: real, k: nat)
    requires k > 0
    ensures k as real * (x / k as real) == x
  {
  }

  /** Term `i` of the arithmetic progression from `a` by `step`. */
  function Term(a: real, step: real, i: nat): real
  {
    a + i as real * step
  }

  lemma TermNext(a: real, step: real, i: nat)
    ensures Term(a, step, i + 1) == Term(a, step, i) + step
  {
    assert (i + 1) as real == i as real + 1.0;
    assert (i as real + 1.0) * step == i as real * step + step;
  }

  lemma TermBelow(a: real, step: real, i: nat, j: nat)
    requires i <= j && step > 0.0
    ensures a <= Term(a, step, i) <= Term(a, step, j)
  {
    MulMonotone(0.0, i as real, step);
    MulMonotone(i as real, j as real, step);
  }

  /** An increasing arithmetic progression of `n` terms: bounded by its ends, strictly increasing, with constant step. */
  lemma Progression(a: real, step: real, n: nat)
    requires n >= 2 && step > 0.0
    ensures forall i :: 0 <= i < n ==> a <= Term(a, step, i) <= Term(a, step, n - 1)
    ensures forall i, j :: 0 <= i < j < n ==> Term(a, step, i) < Term(a, step, j)
    ensures forall i :: 0 <= i < n - 1 ==> Term(a, step, i + 1) - Term(a, step, i) == step
  {
    forall i | 0 <= i < n ensures a <= Term(a, step, i) <= Term(a, step, n - 1) {
      TermBelow(a, step, i, n - 1);
    }
    forall i, j | 0 <= i < j < n ensures Term(a, step, i) < Term(a, step, j) {
      TermNext(a, step, i);
      TermBelow(a, step, i + 1, j);
    }
    forall i | 0 <= i < n - 1 ensures Term(a, step, i + 1) - Term(a, step, i) == step {
      TermNext(a, step, i);
    }
  }

  /** The padded sector step of `count >= 2` items in one of `totalGroups` sectors. */
  function SectorStep(count: nat, totalGroups: nat): real
    requires count >= 2 && totalGroups > 0
  {
    0.8 * (TAU / totalGroups as real) / (count - 1) as real
  }

  /** From two items on, the grouped angles are the progression from the padded sector start by SectorStep. */
  lemma GroupedTerms(count: nat, groupIndex: nat, totalGroups: nat, startAngle: real)
    requires count >= 2 && totalGroups > 0
    ensures var r := DistributeAnglesGrouped(count, groupIndex, totalGroups, startAngle);
      var first := SectorStart(groupIndex, totalGroups, startAngle) + 0.1 * (TAU / totalGroups as real);
      forall i :: 0 <= i < count ==> r[i] == Term(first, SectorStep(count, totalGroups), i)
  {
    var size := TAU / totalGroups as real;
    assert size - size * 0.1 * 2.0 == 0.8 * size;
  }

  /** The padded sector step spans 80% of the sector over `count - 1` gaps. */
  lemma SectorStepSpan(count: nat, totalGroups: nat)
    requires count >= 2 && totalGroups > 0
    ensures SectorStep(count, totalGroups) > 0.0
    ensures (count - 1) as real * SectorStep(count, totalGroups) == 0.8 * (TAU / totalGroups as real)
  {
    DivPositive(TAU, totalGroups);
    DivPositive(0.8 * (TAU / totalGroups as real), count - 1);
    MulDiv(0.8 * (TAU / totalGroups as real), count - 1);
  }

  /**
   * From two items on, the angles run evenly and strictly increasing from 10%
   * to 90% of the group's sector.
   */
  lemma GroupedInsideSector(count: nat, groupIndex: nat, totalGroups: nat, startAngle: real)
    requires count >= 2 && totalGroups > 0
    ensures var r := DistributeAnglesGrouped(count, groupIndex, totalGroups, startAngle);
      var size := TAU / totalGroups as real;
      var start := SectorStart(groupIndex, totalGroups, startAngle);
      && r[0] == start + 0.1 * size
      && r[count - 1] == start + 0.9 * size
      && (forall i :: 0 <= i < count ==> start + 0.1 * size <= r[i] <= start + 0.9 * size)
      && (forall i :: 0 <= i < count - 1 ==> r[i + 1] - r[i] == 0.8 * size / (count - 1) as real)
      && (forall i, j :: 0 <= i < j < count ==> r[i] < r[j])
  {
    var size := TAU / totalGroups as real;
    var first := SectorStart(groupIndex, totalGroups, startAngle) + 0.1 * size;
    var step := SectorStep(count, totalGroups);
    GroupedTerms(count, groupIndex, totalGroups, startAngle);
    SectorStepSpan(count, totalGroups);
    Progression(first, step, count);
  }

  /** Groups `g1 < g2` of equal sectors: the sector of g1 ends no later than the sector of g2 starts. */
  lemma SectorsOrdered(g1: nat, g2: nat, totalGroups: nat, startAngle: real)
    requires g1 < g2 && totalGroups > 0
    ensures SectorStart(g1, totalGroups, startAngle) + TAU / totalGroups as real <= SectorStart(g2, totalGroups, startAngle)
  {
    var size := TAU / totalGroups as real;
    DivPositive(TAU, totalGroups);
    MulMonotone((g1 + 1) as real, g2 as real, size);
    assert (g1 + 1) as real * size == g1 as real * size + size;
  }

  /**
   * Sector disjointness: from two items on, every angle of a lower-indexed group
   * lies strictly below every angle of a higher-indexed one.
   */
  lemma GroupedSectorsDisjoint(c1: nat, g1: nat, c2: nat, g2: nat, totalGroups: nat, startAngle: real)
    requires c1 >= 2 && c2 >= 2 && g1 < g2 < totalGroups
    ensures var r1 := DistributeAnglesGrouped(c1, g1, totalGroups, startAngle);
      var r2 := DistributeAnglesGrouped(c2, g2, totalGroups, startAngle);
      forall i, j :: 0 <= i < c1 && 0 <= j < c2 ==> r1[i] < r2[j]
  {
    DivPositive(TAU, totalGroups);
    SectorsOrdered(g1, g2, totalGroups, startAngle);
    GroupedInsideSector(c1, g1, totalGroups, startAngle);
    GroupedInsideSector(c2, g2, totalGroups, startAngle);
  }

  // ---------------------------------------------------------------------------
  // polarToCartesian
  // ---------------------------------------------------------------------------

  datatype Point = Point(x: real, y: real)

  /** `cos` and `sin` are supplied by the caller: trigonometry is not modelled. */
  function PolarToCartesian(centerX: real, centerY: real, radius: real, angle: real, cos: real -> real, sin: real -> real): Point
  {
    Point(centerX + radius * cos(angle), centerY + radius * sin(angle))
  }

  /** Where cos and sin satisfy the Pythagorean identity, the point lies on the circle of the given radius. */
  lemma PolarOnCircle(centerX: real, centerY: real, radius: real, angle: real, cos: real -> real, sin: real -> real)
    requires cos(angle) * cos(angle) + sin(angle) * sin(angle) == 1.0
    ensures var p := PolarToCartesian(centerX, centerY, radius, angle, cos, sin);
      (p.x - centerX) * (p.x - centerX) + (p.y - centerY) * (p.y - centerY) == radius * radius
  {
    var c, s := cos(angle), sin(angle);
    assert (radius * c) * (radius * c) + (radius * s) * (radius * s) == radius * radius * (c * c + s * s);
  }
}
