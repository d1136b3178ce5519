/**
 * The code preview of the documentation page
 * (src/documentation_components/CodePreviewSidebar.tsx, lines 49-180):
 * the `<RadialOrbit ... />` snippet that reproduces the playground's current
 * settings, printing only the props and fields that differ from the chart's
 * defaults.
 *
 * `PreviewKeys` lists what the snippet's lines set, in order, and
 * `PreviewText` is the snippet those lines make; `GenerateCodePreview`
 * builds the text push by push as the component does and is proved to print
 * exactly `PreviewText`. The lemmas say
 * which lines appear (exactly the customised settings), in which order (a
 * fixed one, each at most once), that every line begins with the name of
 * what it sets, and that the snippet splits back into its lines.
 */
module CodePreview {
  import opened OrbitTypes

  // ---------------------------------------------------------------------------
  // The playground settings
  // ---------------------------------------------------------------------------

  /** `dataLoadedAnimation`: 'sides' | 'center' | 'none'. */
  datatype LoadAnimation = Sides | FromCenter | NoLoadAnimation

  function LoadAnimationName(a: LoadAnimation): string
  {
    match a
    case Sides => "sides"
    case FromCenter => "center"
    case NoLoadAnimation => "none"
  }

  datatype AnimationSettings = AnimationSettings(
    orbitRotation: bool,
    orbitSpeedBase: real,
    hoverScale: real,
    orbits: Option<seq<string>>,
    dataLoadedAnimation: Option<LoadAnimation>)

  datatype PathSettings = PathSettings(
    show: bool,
    strokeWidth: real,
    strokeDasharray: string,
    opacity: real,
    hoverStrokeWidth: real,
    hoverOpacity: real)

  datatype ColorSettings = ColorSettings(background: string, ring: string, center: string, tooltip: string)

  /** The sidebar's props; the two renderer flags default to false in the source. */
  datatype Settings = Settings(
    width: real,
    height: real,
    animation: AnimationSettings,
    itemShape: string,
    groupBy: bool,
    groupOrbits: Option<seq<seq<string>>>,
    orbitPaths: PathSettings,
    colors: ColorSettings,
    hasCustomRenderer: bool,
    showCustomRenderer: bool)

  /** How a number is printed inside a template literal (`${n}`). */
  type NumberText = real -> string

  // ---------------------------------------------------------------------------
  // What each line sets
  // ---------------------------------------------------------------------------

  /** The prop or field a line of the snippet sets; a block's closing `}}` is tagged with its block. */
  datatype Key =
    | Data | Width | Height | SortableBy | OnGroupSelect | OnItemSelect | OnDialSelect
    | ItemShape | RenderItem
    | AnimationOpen | OrbitRotation | OrbitSpeedBase | HoverScale | Orbits | DataLoadedAnimation | AnimationClose
    | GroupBy | GroupOrbits
    | OrbitPathsOpen | Show | StrokeWidth | StrokeDasharray | Opacity | HoverStrokeWidth | HoverOpacity | OrbitPathsClose
    | ColorsOpen | Background | Ring | CenterColor | Tooltip | ColorsClose

  /** The position of a key in the snippet's fixed order. */
  function Rank(k: Key): nat
  {
    match k
    case Data => 0 case Width => 1 case Height => 2 case SortableBy => 3
    case OnGroupSelect => 4 case OnItemSelect => 5 case OnDialSelect => 6
    case ItemShape => 7 case RenderItem => 8
    case AnimationOpen => 9 case OrbitRotation => 10 case OrbitSpeedBase => 11 case HoverScale => 12
    case Orbits => 13 case DataLoadedAnimation => 14 case AnimationClose => 15
    case GroupBy => 16 case GroupOrbits => 17
    case OrbitPathsOpen => 18 case Show => 19 case StrokeWidth => 20 case StrokeDasharray => 21
    case Opacity => 22 case HoverStrokeWidth => 23 case HoverOpacity => 24 case OrbitPathsClose => 25
    case ColorsOpen => 26 case Background => 27 case Ring => 28 case CenterColor => 29 case Tooltip => 30
    case ColorsClose => 31
  }

  /** The text a line starts with: the prop name after two spaces, a field name after four, or the closing braces. */
  function Label(k: Key): string
  {
    match k
    case Data => "  data=" case Width => "  width=" case Height => "  height="
    case SortableBy => "  sortableBy=" case OnGroupSelect => "  onGroupSelect="
    case OnItemSelect => "  onItemSelect=" case OnDialSelect => "  onDialSelect="
    case ItemShape => "  itemShape=" case RenderItem => "  renderItem="
    case AnimationOpen => "  animation=" case OrbitRotation => "    orbitRotation:"
    case OrbitSpeedBase => "    orbitSpeedBase:" case HoverScale => "    hoverScale:"
    case Orbits => "    orbits:" case DataLoadedAnimation => "    dataLoadedAnimation:"
    case AnimationClose => "  }}"
    case GroupBy => "  groupBy=" case GroupOrbits => "  groupOrbits="
    case OrbitPathsOpen => "  orbitPaths=" case Show => "    show:" case StrokeWidth => "    strokeWidth:"
    case StrokeDasharray => "    strokeDasharray:" case Opacity => "    opacity:"
    case HoverStrokeWidth => "    hoverStrokeWidth:" case HoverOpacity => "    hoverOpacity:"
    case OrbitPathsClose => "  }}"
    case ColorsOpen => "  colors=" case Background => "    background:" case Ring => "    ring:"
    case CenterColor => "    center:" case Tooltip => "    tooltip:"
    case ColorsClose => "  }}"
  }

  /**
   * The reference table of defaults: whether the snippet must show a key for
   * these settings. Fixed props always show; a setting shows when it differs
   * from the chart's default; a block shows when one of its fields does.
   */
  predicate Shown(s: Settings, k: Key)
  {
    match k
    case Data => true
    case Width => s.width != 800.0
    case Height => s.height != 800.0
    case SortableBy => true
    case OnGroupSelect => true
    case OnItemSelect => true
    case OnDialSelect => true
    case ItemShape => s.itemShape != "circle"
    case RenderItem => s.hasCustomRenderer || s.showCustomRenderer
    case AnimationOpen => AnimationCustomised(s.animation)
    case OrbitRotation => !s.animation.orbitRotation
    case OrbitSpeedBase => s.animation.orbitSpeedBase != 60.0
    case HoverScale => s.animation.hoverScale != 1.1
    case Orbits => s.animation.orbits.Some?
    case DataLoadedAnimation => s.animation.dataLoadedAnimation.Some? && s.animation.dataLoadedAnimation.value != Sides
    case AnimationClose => AnimationCustomised(s.animation)
    case GroupBy => s.groupBy
    case GroupOrbits => s.groupOrbits.Some?
    case OrbitPathsOpen => PathsCustomised(s.orbitPaths)
    case Show => !s.orbitPaths.show
    case StrokeWidth => s.orbitPaths.strokeWidth != 2.0
    case StrokeDasharray => s.orbitPaths.strokeDasharray != "5,5"
    case Opacity => s.orbitPaths.opacity != 0.7
    case HoverStrokeWidth => s.orbitPaths.hoverStrokeWidth != 3.0
    case HoverOpacity => s.orbitPaths.hoverOpacity != 0.9
    case OrbitPathsClose => PathsCustomised(s.orbitPaths)
    case ColorsOpen => ColorsCustomised(s.colors)
    case Background => s.colors.background != "rgba(0, 0, 0, 0.05)"
    case Ring => s.colors.ring != "rgba(100, 100, 100, 0.2)"
    case CenterColor => s.colors.center != "#1a1a1a"
    case Tooltip => s.colors.tooltip != "rgba(0, 0, 0, 0.9)"
    case ColorsClose => ColorsCustomised(s.colors)
  }

  predicate AnimationCustomised(a: AnimationSettings)
  {
    !a.orbitRotation || a.orbitSpeedBase != 60.0 || a.hoverScale != 1.1 || a.orbits.Some?
    || (a.dataLoadedAnimation.Some? && a.dataLoadedAnimation.value != Sides)
  }

  predicate PathsCustomised(p: PathSettings)
  {
    !p.show || p.strokeWidth != 2.0 || p.strokeDasharray != "5,5" || p.opacity != 0.7
    || p.hoverStrokeWidth != 3.0 || p.hoverOpacity != 0.9
  }

  predicate ColorsCustomised(c: ColorSettings)
  {
    c.background != "rgba(0, 0, 0, 0.05)" || c.ring != "rgba(100, 100, 100, 0.2)"
    || c.center != "#1a1a1a" || c.tooltip != "rgba(0, 0, 0, 0.9)"
  }

  /** The block a field belongs to, named by its opening key. */
  function BlockOf(k: Key): Option<Key>
  {
    match k
    case OrbitRotation => Some(AnimationOpen)
    case OrbitSpeedBase => Some(AnimationOpen)
    case HoverScale => Some(AnimationOpen)
    case Orbits => Some(AnimationOpen)
    case DataLoadedAnimation => Some(AnimationOpen)
    case Show => Some(OrbitPathsOpen)
    case StrokeWidth => Some(OrbitPathsOpen)
    case StrokeDasharray => Some(OrbitPathsOpen)
    case Opacity => Some(OrbitPathsOpen)
    case HoverStrokeWidth => Some(OrbitPathsOpen)
    case HoverOpacity => Some(OrbitPathsOpen)
    case Background => Some(ColorsOpen)
    case Ring => Some(ColorsOpen)
    case CenterColor => Some(ColorsOpen)
    case Tooltip => Some(ColorsOpen)
    case _ => None
  }

  /** The animation block is shown exactly when one of its fields is. */
  lemma AnimationShownIffField(s: Settings)
    ensures Shown(s, AnimationOpen) <==> exists k :: BlockOf(k) == Some(AnimationOpen) && Shown(s, k)
  {
    var a := s.animation;
    if AnimationCustomised(a) {
      var k := if !a.orbitRotation then OrbitRotation else if a.orbitSpeedBase != 60.0 then OrbitSpeedBase
        else if a.hoverScale != 1.1 then HoverScale else if a.orbits.Some? then Orbits else DataLoadedAnimation;
      assert BlockOf(k) == Some(AnimationOpen) && Shown(s, k);
    }
  }

  /** The orbit-path block is shown exactly when one of its fields is. */
  lemma PathsShownIffField(s: Settings)
    ensures Shown(s, OrbitPathsOpen) <==> exists k :: BlockOf(k) == Some(OrbitPathsOpen) && Shown(s, k)
  {
    var p := s.orbitPaths;
    if PathsCustomised(p) {
      var k := if !p.show then Show else if p.strokeWidth != 2.0 then StrokeWidth
        else if p.strokeDasharray != "5,5" then StrokeDasharray else if p.opacity != 0.7 then Opacity
        else if p.hoverStrokeWidth != 3.0 then HoverStrokeWidth else HoverOpacity;
      assert BlockOf(k) == Some(OrbitPathsOpen) && Shown(s, k);
    }
  }

  /** The colour block is shown exactly when one of its fields is. */
  lemma ColorsShownIffField(s: Settings)
    ensures Shown(s, ColorsOpen) <==> exists k :: BlockOf(k) == Some(ColorsOpen) && Shown(s, k)
  {
    var c := s.colors;
    if ColorsCustomised(c) {
      var k := if c.background != "rgba(0, 0, 0, 0.05)" then Background else if c.ring != "rgba(100, 100, 100, 0.2)" then Ring
        else if c.center != "#1a1a1a" then CenterColor else Tooltip;
      assert BlockOf(k) == Some(ColorsOpen) && Shown(s, k);
    }
  }

  // ---------------------------------------------------------------------------
  // The snippet, key by key
  // ---------------------------------------------------------------------------

  function When(c: bool, k: Key): seq<Key>
  {
    if c then [k] else []
  }

  /** A `{{ ... }}` block: its opening line, its fields and the closing line, or nothing when it has no field. */
  function Block(open: Key, fields: seq<Key>, close: Key): seq<Key>
  {
    if |fields| > 0 then [open] + fields + [close] else []
  }

  function HeadKeys(s: Settings): seq<Key>
  {
    [Data] + When(s.width != 800.0, Width) + When(s.height != 800.0, Height)
    + [SortableBy, OnGroupSelect, OnItemSelect, OnDialSelect]
    + When(s.itemShape != "circle", ItemShape)
    + When(s.hasCustomRenderer || s.showCustomRenderer, RenderItem)
  }

  function AnimationKeys(a: AnimationSettings): seq<Key>
  {
    When(!a.orbitRotation, OrbitRotation)
    + When(a.orbitSpeedBase != 60.0, OrbitSpeedBase)
    + When(a.hoverScale != 1.1, HoverScale)
    + When(a.orbits.Some?, Orbits)
    + When(a.dataLoadedAnimation.Some? && a.dataLoadedAnimation.value != Sides, DataLoadedAnimation)
  }

  function GroupingKeys(s: Settings): seq<Key>
  {
    When(s.groupBy, GroupBy) + When(s.groupOrbits.Some?, GroupOrbits)
  }

  function PathKeys(p: PathSettings): seq<Key>
  {
    When(!p.show, Show)
    + When(p.strokeWidth != 2.0, StrokeWidth)
    + When(p.strokeDasharray != "5,5", StrokeDasharray)
    + When(p.opacity != 0.7, Opacity)
    + When(p.hoverStrokeWidth != 3.0, HoverStrokeWidth)
    + When(p.hoverOpacity != 0.9, HoverOpacity)
  }

  function ColorKeys(c: ColorSettings): seq<Key>
  {
    When(c.background != "rgba(0, 0, 0, 0.05)", Background)
    + When(c.ring != "rgba(100, 100, 100, 0.2)", Ring)
    + When(c.center != "#1a1a1a", CenterColor)
    + When(c.tooltip != "rgba(0, 0, 0, 0.9)", Tooltip)
  }

  /** What the lines of the snippet set, in order. */
  function PreviewKeys(s: Settings): seq<Key>
  {
    HeadKeys(s)
    + Block(AnimationOpen, AnimationKeys(s.animation), AnimationClose)
    + GroupingKeys(s)
    + Block(OrbitPathsOpen, PathKeys(s.orbitPaths), OrbitPathsClose)
    + Block(ColorsOpen, ColorKeys(s.colors), ColorsClose)
  }

  /** `ids.map(id => `'${id}'`).join(', ')`. */
  function QuotedIds(ids: seq<string>): string
  {
    Join(seq(|ids|, i requires 0 <= i < |ids| => "'" + ids[i] + "'"), ", ")
  }

  /** A bucket of `groupOrbits`: `[]` when empty, otherwise its quoted ids in brackets. */
  function BucketText(bucket: seq<string>): string
  {
    if |bucket| == 0 then "[]" else "[" + QuotedIds(bucket) + "]"
  }

  function GroupOrbitsText(buckets: seq<seq<string>>): string
  {
    if |buckets| == 0 then "  groupOrbits={[]}"
    else "  groupOrbits={[" + Join(seq(|buckets|, i requires 0 <= i < |buckets| => BucketText(buckets[i])), ", ") + "]}"
  }

  function OrbitsText(orbits: seq<string>): string
  {
    if |orbits| == 0 then "    orbits: []" else "    orbits: [" + QuotedIds(orbits) + "]"
  }

  // The fixed pieces of the lines, as the template literals spell them.
  const DATA_LINE := "  data={data}"
  const WIDTH_START := "  width={"
  const HEIGHT_START := "  height={"
  const BRACE_END := "}"
  const SORTABLE_LINE := "  sortableBy=\"value\""
  const GROUP_SELECT_LINE := "  onGroupSelect={handleGroupSelect}"
  const ITEM_SELECT_LINE := "  onItemSelect={handleItemSelect}"
  const DIAL_SELECT_LINE := "  onDialSelect={handleDialSelect}"
  const ITEM_SHAPE_START := "  itemShape=\""
  const QUOTE_END := "\""
  const RENDER_ITEM_LINE := "  renderItem={customItemRenderer}"
  const ANIMATION_OPEN_LINE := "  animation={{"
  const ROTATION_OFF_LINE := "    orbitRotation: false"
  const SPEED_START := "    orbitSpeedBase: "
  const HOVER_SCALE_START := "    hoverScale: "
  const LOAD_ANIMATION_START := "    dataLoadedAnimation: '"
  const APOSTROPHE_END := "'"
  const BLOCK_CLOSE_LINE := "  }}"
  const GROUP_BY_LINE := "  groupBy={true}"
  const PATHS_OPEN_LINE := "  orbitPaths={{"
  const SHOW_OFF_LINE := "    show: false"
  const STROKE_WIDTH_START := "    strokeWidth: "
  const DASH_START := "    strokeDasharray: '"
  const OPACITY_START := "    opacity: "
  const HOVER_STROKE_START := "    hoverStrokeWidth: "
  const HOVER_OPACITY_START := "    hoverOpacity: "
  const COLORS_OPEN_LINE := "  colors={{"
  const BACKGROUND_START := "    background: '"
  const RING_START := "    ring: '"
  const CENTER_START := "    center: '"
  const TOOLTIP_START := "    tooltip: '"

  /** The text of the line that sets `k` (for an optional setting, as printed when it is present). */
  function LineText(k: Key, s: Settings, num: NumberText): string
  {
    var a, p, c := s.animation, s.orbitPaths, s.colors;
    match k
    case Data => DATA_LINE
    case Width => WIDTH_START + num(s.width) + BRACE_END
    case Height => HEIGHT_START + num(s.height) + BRACE_END
    case SortableBy => SORTABLE_LINE
    case OnGroupSelect => GROUP_SELECT_LINE
    case OnItemSelect => ITEM_SELECT_LINE
    case OnDialSelect => DIAL_SELECT_LINE
    case ItemShape => ITEM_SHAPE_START + s.itemShape + QUOTE_END
    case RenderItem => RENDER_ITEM_LINE
    case AnimationOpen => ANIMATION_OPEN_LINE
    case OrbitRotation => ROTATION_OFF_LINE
    case OrbitSpeedBase => SPEED_START + num(a.orbitSpeedBase)
    case HoverScale => HOVER_SCALE_START + num(a.hoverScale)
    case Orbits => OrbitsText(if a.orbits.Some? then a.orbits.value else [])
    case DataLoadedAnimation =>
      LOAD_ANIMATION_START + LoadAnimationName(if a.dataLoadedAnimation.Some? then a.dataLoadedAnimation.value else Sides) + APOSTROPHE_END
    case AnimationClose => BLOCK_CLOSE_LINE
    case GroupBy => GROUP_BY_LINE
    case GroupOrbits => GroupOrbitsText(if s.groupOrbits.Some? then s.groupOrbits.value else [])
    case OrbitPathsOpen => PATHS_OPEN_LINE
    case Show => SHOW_OFF_LINE
    case StrokeWidth => STROKE_WIDTH_START + num(p.strokeWidth)
    case StrokeDasharray => DASH_START + p.strokeDasharray + APOSTROPHE_END
    case Opacity => OPACITY_START + num(p.opacity)
    case HoverStrokeWidth => HOVER_STROKE_START + num(p.hoverStrokeWidth)
    case HoverOpacity => HOVER_OPACITY_START + num(p.hoverOpacity)
    case OrbitPathsClose => BLOCK_CLOSE_LINE
    case ColorsOpen => COLORS_OPEN_LINE
    case Background => BACKGROUND_START + c.background + APOSTROPHE_END
    case Ring => RING_START + c.ring + APOSTROPHE_END
    case CenterColor => CENTER_START + c.center + APOSTROPHE_END
    case Tooltip => TOOLTIP_START + c.tooltip + APOSTROPHE_END
    case ColorsClose => BLOCK_CLOSE_LINE
  }

  /** The texts of `keys`' lines. */
  function Render(keys: seq<Key>, s: Settings, num: NumberText): (lines: seq<string>)
    ensures |lines| == |keys|
    ensures forall i :: 0 <= i < |keys| ==> lines[i] == LineText(keys[i], s, num)
  {
    seq(|keys|, i requires 0 <= i < |keys| => LineText(keys[i], s, num))
  }

  /** The whole snippet. */
  function PreviewText(s: Settings, num: NumberText): string
  {
    "<RadialOrbit\n" + Join(Render(PreviewKeys(s), s, num), "\n") + "\n/>"
  }

  // ---------------------------------------------------------------------------
  // Joining and splitting
  // ---------------------------------------------------------------------------

  /** `parts.join(sep)`. */
  function Join(parts: seq<string>, sep: string): string
  {
    if |parts| == 0 then ""
    else if |parts| == 1 then parts[0]
    else parts[0] + sep + Join(parts[1..], sep)
  }

  /** `s.split(sep)` for a one-character separator: the pieces between separators, at least one. */
  function Split(s: string, sep: char): (pieces: seq<string>)
    ensures |pieces| >= 1
  {
    if |s| == 0 then [""]
    else if s[0] == sep then [""] + Split(s[1..], sep)
    else var rest := Split(s[1..], sep); [[s[0]] + rest[0]] + rest[1..]
  }

  lemma {:induction false} SplitWithout(s: string, sep: char)
    requires sep !in s
    ensures Split(s, sep) == [s]
    decreases |s|
  {
    if |s| > 0 {
      SplitWithout(s[1..], sep);
      assert [s[0]] + s[1..] == s;
    }
  }

  lemma {:induction false} SplitAt(a: string, sep: char, b: string)
    requires sep !in a
    ensures Split(a + [sep] + b, sep) == [a] + Split(b, sep)
    decreases |a|
  {
    if |a| == 0 {
      assert a + [sep] + b == [sep] + b;
      assert ([sep] + b)[1..] == b;
    } else {
      var s := a + [sep] + b;
      assert s[1..] == a[1..] + [sep] + b;
      SplitAt(a[1..], sep, b);
      assert [a[0]] + a[1..] == a;
    }
  }

  /** Splitting a join of pieces free of the separator gives the pieces back. */
  lemma {:induction false} SplitJoin(parts: seq<string>, sep: char)
    requires |parts| > 0
    requires forall i :: 0 <= i < |parts| ==> sep !in parts[i]
    ensures Split(Join(parts, [sep]), sep) == parts
    decreases |parts|
  {
    if |parts| == 1 {
      SplitWithout(parts[0], sep);
    } else {
      SplitJoin(parts[1..], sep);
      SplitAt(parts[0], sep, Join(parts[1..], [sep]));
      assert [parts[0]] + parts[1..] == parts;
    }
  }

  /** Joining with one more piece at the end adds the separator and that piece. */
  lemma {:induction false} JoinSnoc(parts: seq<string>, last: string, sep: string)
    requires |parts| > 0
    ensures Join(parts + [last], sep) == Join(parts, sep) + sep + last
    decreases |parts|
  {
    if |parts| > 1 {
      JoinSnoc(parts[1..], last, sep);
      assert (parts + [last])[1..] == parts[1..] + [last];
    } else {
      assert (parts + [last])[1..] == [last];
    }
  }

  // ---------------------------------------------------------------------------
  // Properties of the snippet
  // ---------------------------------------------------------------------------

  /** The ranks of `keys` lie in [lo, hi) and strictly increase. */
  predicate RankedWithin(keys: seq<Key>, lo: nat, hi: nat)
    decreases |keys|
  {
    |keys| == 0 || (lo <= Rank(keys[0]) < hi && RankedWithin(keys[1..], Rank(keys[0]) + 1, hi))
  }

  lemma {:induction false} RankedAppend(a: seq<Key>, b: seq<Key>, lo: nat, mid: nat, hi: nat)
    requires lo <= mid <= hi
    requires RankedWithin(a, lo, mid) && RankedWithin(b, mid, hi)
    ensures RankedWithin(a + b, lo, hi)
    decreases |a|
  {
    if |a| == 0 {
      assert a + b == b;
      RankedWeaken(b, mid, lo, hi);
    } else {
      RankedAppend(a[1..], b, Rank(a[0]) + 1, mid, hi);
      assert (a + b)[1..] == a[1..] + b;
    }
  }

  lemma {:induction false} RankedWeaken(keys: seq<Key>, lo: nat, lo': nat, hi: nat)
    requires RankedWithin(keys, lo, hi) && lo' <= lo
    ensures RankedWithin(keys, lo', hi)
  {
  }

  /** Ranked sequences are strictly ordered by rank and stay within their bounds. */
  lemma {:induction false} RankedOrdered(keys: seq<Key>, lo: nat, hi: nat)
    requires RankedWithin(keys, lo, hi)
    ensures forall i :: 0 <= i < |keys| ==> lo <= Rank(keys[i]) < hi
    ensures forall i, j :: 0 <= i < j < |keys| ==> Rank(keys[i]) < Rank(keys[j])
    decreases |keys|
  {
    if |keys| > 0 {
      RankedOrdered(keys[1..], Rank(keys[0]) + 1, hi);
      forall i | 0 < i < |keys| ensures Rank(keys[0]) < Rank(keys[i]) && lo <= Rank(keys[i]) < hi {
        assert keys[i] == keys[1..][i - 1];
      }
      forall i, j | 0 < i < j < |keys| ensures Rank(keys[i]) < Rank(keys[j]) {
        assert keys[i] == keys[1..][i - 1] && keys[j] == keys[1..][j - 1];
      }
    }
  }

  lemma WhenRanked(c: bool, k: Key, lo: nat, hi: nat)
    requires lo <= Rank(k) < hi
    ensures RankedWithin(When(c, k), lo, hi)
  {
    if c {
      assert When(c, k)[1..] == [];
    }
  }

  lemma BlockRanked(open: Key, fields: seq<Key>, close: Key)
    requires Rank(open) < Rank(close)
    requires RankedWithin(fields, Rank(open) + 1, Rank(close))
    ensures RankedWithin(Block(open, fields, close), Rank(open), Rank(close) + 1)
  {
    if |fields| > 0 {
      WhenRanked(true, close, Rank(close), Rank(close) + 1);
      RankedAppend(fields, [close], Rank(open) + 1, Rank(close), Rank(close) + 1);
      assert ([open] + fields + [close])[1..] == fields + [close];
    }
  }

  lemma HeadRanked(s: Settings)
    ensures RankedWithin(HeadKeys(s), 0, 9)
  {
    var w := When(s.width != 800.0, Width);
    var h := When(s.height != 800.0, Height);
    var fixed := [SortableBy, OnGroupSelect, OnItemSelect, OnDialSelect];
    var shape := When(s.itemShape != "circle", ItemShape);
    var render := When(s.hasCustomRenderer || s.showCustomRenderer, RenderItem);
    WhenRanked(true, Data, 0, 1);
    WhenRanked(s.width != 800.0, Width, 1, 2);
    WhenRanked(s.height != 800.0, Height, 2, 3);
    assert fixed[1..][1..][1..][1..] == [];
    WhenRanked(s.itemShape != "circle", ItemShape, 7, 8);
    WhenRanked(s.hasCustomRenderer || s.showCustomRenderer, RenderItem, 8, 9);
    RankedAppend([Data], w, 0, 1, 2);
    RankedAppend([Data] + w, h, 0, 2, 3);
    RankedAppend([Data] + w + h, fixed, 0, 3, 7);
    RankedAppend([Data] + w + h + fixed, shape, 0, 7, 8);
    RankedAppend([Data] + w + h + fixed + shape, render, 0, 8, 9);
  }

  lemma AnimationRanked(a: AnimationSettings)
    ensures RankedWithin(AnimationKeys(a), 10, 15)
  {
    var r := When(!a.orbitRotation, OrbitRotation);
    var sp := When(a.orbitSpeedBase != 60.0, OrbitSpeedBase);
    var hs := When(a.hoverScale != 1.1, HoverScale);
    var o := When(a.orbits.Some?, Orbits);
    var d := When(a.dataLoadedAnimation.Some? && a.dataLoadedAnimation.value != Sides, DataLoadedAnimation);
    WhenRanked(!a.orbitRotation, OrbitRotation, 10, 11);
    WhenRanked(a.orbitSpeedBase != 60.0, OrbitSpeedBase, 11, 12);
    WhenRanked(a.hoverScale != 1.1, HoverScale, 12, 13);
    WhenRanked(a.orbits.Some?, Orbits, 13, 14);
    WhenRanked(a.dataLoadedAnimation.Some? && a.dataLoadedAnimation.value != Sides, DataLoadedAnimation, 14, 15);
    RankedAppend(r, sp, 10, 11, 12);
    RankedAppend(r + sp, hs, 10, 12, 13);
    RankedAppend(r + sp + hs, o, 10, 13, 14);
    RankedAppend(r + sp + hs + o, d, 10, 14, 15);
  }

  lemma PathsRanked(p: PathSettings)
    ensures RankedWithin(PathKeys(p), 19, 25)
  {
    var a := When(!p.show, Show);
    var b := When(p.strokeWidth != 2.0, StrokeWidth);
    var c := When(p.strokeDasharray != "5,5", StrokeDasharray);
    var d := When(p.opacity != 0.7, Opacity);
    var e := When(p.hoverStrokeWidth != 3.0, HoverStrokeWidth);
    var f := When(p.hoverOpacity != 0.9, HoverOpacity);
    WhenRanked(!p.show, Show, 19, 20);
    WhenRanked(p.strokeWidth != 2.0, StrokeWidth, 20, 21);
    WhenRanked(p.strokeDasharray != "5,5", StrokeDasharray, 21, 22);
    WhenRanked(p.opacity != 0.7, Opacity, 22, 23);
    WhenRanked(p.hoverStrokeWidth != 3.0, HoverStrokeWidth, 23, 24);
    WhenRanked(p.hoverOpacity != 0.9, HoverOpacity, 24, 25);
    RankedAppend(a, b, 19, 20, 21);
    RankedAppend(a + b, c, 19, 21, 22);
    RankedAppend(a + b + c, d, 19, 22, 23);
    RankedAppend(a + b + c + d, e, 19, 23, 24);
    RankedAppend(a + b + c + d + e, f, 19, 24, 25);
  }

  lemma ColorsRanked(c: ColorSettings)
    ensures RankedWithin(ColorKeys(c), 27, 31)
  {
    var a := When(c.background != "rgba(0, 0, 0, 0.05)", Background);
    var b := When(c.ring != "rgba(100, 100, 100, 0.2)", Ring);
    var d := When(c.center != "#1a1a1a", CenterColor);
    var e := When(c.tooltip != "rgba(0, 0, 0, 0.9)", Tooltip);
    WhenRanked(c.background != "rgba(0, 0, 0, 0.05)", Background, 27, 28);
    WhenRanked(c.ring != "rgba(100, 100, 100, 0.2)", Ring, 28, 29);
    WhenRanked(c.center != "#1a1a1a", CenterColor, 29, 30);
    WhenRanked(c.tooltip != "rgba(0, 0, 0, 0.9)", Tooltip, 30, 31);
    RankedAppend(a, b, 27, 28, 29);
    RankedAppend(a + b, d, 27, 29, 30);
    RankedAppend(a + b + d, e, 27, 30, 31);
  }

  lemma GroupingRanked(s: Settings)
    ensures RankedWithin(GroupingKeys(s), 16, 18)
  {
    WhenRanked(s.groupBy, GroupBy, 16, 17);
    WhenRanked(s.groupOrbits.Some?, GroupOrbits, 17, 18);
    RankedAppend(When(s.groupBy, GroupBy), When(s.groupOrbits.Some?, GroupOrbits), 16, 17, 18);
  }

  lemma FrontRanked(s: Settings)
    ensures RankedWithin(HeadKeys(s) + Block(AnimationOpen, AnimationKeys(s.animation), AnimationClose) + GroupingKeys(s), 0, 18)
  {
    var head := HeadKeys(s);
    var anim := Block(AnimationOpen, AnimationKeys(s.animation), AnimationClose);
    HeadRanked(s);
    AnimationRanked(s.animation);
    BlockRanked(AnimationOpen, AnimationKeys(s.animation), AnimationClose);
    GroupingRanked(s);
    RankedAppend(head, anim, 0, 9, 16);
    RankedAppend(head + anim, GroupingKeys(s), 0, 16, 18);
  }

  lemma PathsBlockRanked(p: PathSettings)
    ensures RankedWithin(Block(OrbitPathsOpen, PathKeys(p), OrbitPathsClose), 18, 26)
  {
    PathsRanked(p);
    BlockRanked(OrbitPathsOpen, PathKeys(p), OrbitPathsClose);
  }

  lemma ColorsBlockRanked(c: ColorSettings)
    ensures RankedWithin(Block(ColorsOpen, ColorKeys(c), ColorsClose), 26, 32)
  {
    ColorsRanked(c);
    BlockRanked(ColorsOpen, ColorKeys(c), ColorsClose);
  }

  lemma BackRanked(s: Settings)
    ensures RankedWithin(Block(OrbitPathsOpen, PathKeys(s.orbitPaths), OrbitPathsClose)
      + Block(ColorsOpen, ColorKeys(s.colors), ColorsClose), 18, 32)
  {
    PathsBlockRanked(s.orbitPaths);
    ColorsBlockRanked(s.colors);
    RankedAppend(Block(OrbitPathsOpen, PathKeys(s.orbitPaths), OrbitPathsClose),
      Block(ColorsOpen, ColorKeys(s.colors), ColorsClose), 18, 26, 32);
  }

  lemma PreviewRanked(s: Settings)
    ensures RankedWithin(PreviewKeys(s), 0, 32)
  {
    var front := HeadKeys(s) + Block(AnimationOpen, AnimationKeys(s.animation), AnimationClose) + GroupingKeys(s);
    var back := Block(OrbitPathsOpen, PathKeys(s.orbitPaths), OrbitPathsClose) + Block(ColorsOpen, ColorKeys(s.colors), ColorsClose);
    FrontRanked(s);
    BackRanked(s);
    RankedAppend(front, back, 0, 18, 32);
    PreviewKeysFrontBack(s);
  }

  /** The snippet's keys are its front part (head, animation, grouping) followed by its two trailing blocks. */
  lemma PreviewKeysFrontBack(s: Settings)
    ensures PreviewKeys(s) == (HeadKeys(s) + Block(AnimationOpen, AnimationKeys(s.animation), AnimationClose) + GroupingKeys(s))
      + (Block(OrbitPathsOpen, PathKeys(s.orbitPaths), OrbitPathsClose) + Block(ColorsOpen, ColorKeys(s.colors), ColorsClose))
  {
    ConcatAssoc(HeadKeys(s) + Block(AnimationOpen, AnimationKeys(s.animation), AnimationClose) + GroupingKeys(s),
      Block(OrbitPathsOpen, PathKeys(s.orbitPaths), OrbitPathsClose), Block(ColorsOpen, ColorKeys(s.colors), ColorsClose));
  }

  lemma ConcatAssoc(x: seq<Key>, y: seq<Key>, z: seq<Key>)
    ensures x + y + z == x + (y + z)
  {
  }

  /** The lines come in the fixed order of `Rank`, so nothing is printed twice. */
  lemma PreviewInOrder(s: Settings)
    ensures var keys := PreviewKeys(s);
      forall i, j :: 0 <= i < j < |keys| ==> Rank(keys[i]) < Rank(keys[j])
  {
    PreviewRanked(s);
    RankedOrdered(PreviewKeys(s), 0, 32);
  }

  /** A conditional line holds a key exactly when its condition holds and the key is its own. */
  lemma WhenHas(c: bool, k0: Key, k: Key)
    ensures k in When(c, k0) <==> c && k == k0
  {
  }

  lemma HeadHas(s: Settings, k: Key)
    ensures k in HeadKeys(s) <==> Rank(k) < 9 && Shown(s, k)
  {
    if k in HeadKeys(s) {
      HeadHasShown(s, k);
    } else if Rank(k) < 9 && Shown(s, k) {
      HeadHasPrinted(s, k);
    }
  }

  lemma HeadHasShown(s: Settings, k: Key)
    requires k in HeadKeys(s)
    ensures Rank(k) < 9 && Shown(s, k)
  {
    WhenHas(s.width != 800.0, Width, k);
    WhenHas(s.height != 800.0, Height, k);
    WhenHas(s.itemShape != "circle", ItemShape, k);
    WhenHas(s.hasCustomRenderer || s.showCustomRenderer, RenderItem, k);
  }

  lemma HeadHasPrinted(s: Settings, k: Key)
    requires Rank(k) < 9 && Shown(s, k)
    ensures k in HeadKeys(s)
  {
    WhenHas(s.width != 800.0, Width, k);
    WhenHas(s.height != 800.0, Height, k);
    WhenHas(s.itemShape != "circle", ItemShape, k);
    WhenHas(s.hasCustomRenderer || s.showCustomRenderer, RenderItem, k);
    HeadProp(k);
  }

  /** The props printed before the animation block. */
  lemma HeadProp(k: Key)
    requires Rank(k) < 9
    ensures k == Data || k == Width || k == Height || k == SortableBy || k == OnGroupSelect
      || k == OnItemSelect || k == OnDialSelect || k == ItemShape || k == RenderItem
  {
  }

  lemma AnimationHas(s: Settings, k: Key)
    ensures k in AnimationKeys(s.animation) <==> BlockOf(k) == Some(AnimationOpen) && Shown(s, k)
  {
    if k in AnimationKeys(s.animation) {
      AnimationHasShown(s, k);
    } else if BlockOf(k) == Some(AnimationOpen) && Shown(s, k) {
      AnimationHasPrinted(s, k);
    }
  }

  lemma AnimationHasShown(s: Settings, k: Key)
    requires k in AnimationKeys(s.animation)
    ensures BlockOf(k) == Some(AnimationOpen) && Shown(s, k)
  {
    WhenHas(!s.animation.orbitRotation, OrbitRotation, k);
    WhenHas(s.animation.orbitSpeedBase != 60.0, OrbitSpeedBase, k);
    WhenHas(s.animation.hoverScale != 1.1, HoverScale, k);
    WhenHas(s.animation.orbits.Some?, Orbits, k);
    WhenHas(s.animation.dataLoadedAnimation.Some? && s.animation.dataLoadedAnimation.value != Sides, DataLoadedAnimation, k);
  }

  lemma AnimationHasPrinted(s: Settings, k: Key)
    requires BlockOf(k) == Some(AnimationOpen) && Shown(s, k)
    ensures k in AnimationKeys(s.animation)
  {
    WhenHas(!s.animation.orbitRotation, OrbitRotation, k);
    WhenHas(s.animation.orbitSpeedBase != 60.0, OrbitSpeedBase, k);
    WhenHas(s.animation.hoverScale != 1.1, HoverScale, k);
    WhenHas(s.animation.orbits.Some?, Orbits, k);
    WhenHas(s.animation.dataLoadedAnimation.Some? && s.animation.dataLoadedAnimation.value != Sides, DataLoadedAnimation, k);
    AnimationField(k);
  }

  /** The fields of the animation block. */
  lemma AnimationField(k: Key)
    requires BlockOf(k) == Some(AnimationOpen)
    ensures k == OrbitRotation || k == OrbitSpeedBase || k == HoverScale || k == Orbits || k == DataLoadedAnimation
  {
  }

  lemma PathsHas(s: Settings, k: Key)
    ensures k in PathKeys(s.orbitPaths) <==> BlockOf(k) == Some(OrbitPathsOpen) && Shown(s, k)
  {
    if k in PathKeys(s.orbitPaths) {
      PathsHasShown(s, k);
    } else if BlockOf(k) == Some(OrbitPathsOpen) && Shown(s, k) {
      PathsHasPrinted(s, k);
    }
  }

  lemma PathsHasShown(s: Settings, k: Key)
    requires k in PathKeys(s.orbitPaths)
    ensures BlockOf(k) == Some(OrbitPathsOpen) && Shown(s, k)
  {
    WhenHas(!s.orbitPaths.show, Show, k);
    WhenHas(s.orbitPaths.strokeWidth != 2.0, StrokeWidth, k);
    WhenHas(s.orbitPaths.strokeDasharray != "5,5", StrokeDasharray, k);
    WhenHas(s.orbitPaths.opacity != 0.7, Opacity, k);
    WhenHas(s.orbitPaths.hoverStrokeWidth != 3.0, HoverStrokeWidth, k);
    WhenHas(s.orbitPaths.hoverOpacity != 0.9, HoverOpacity, k);
  }

  lemma PathsHasPrinted(s: Settings, k: Key)
    requires BlockOf(k) == Some(OrbitPathsOpen) && Shown(s, k)
    ensures k in PathKeys(s.orbitPaths)
  {
    WhenHas(!s.orbitPaths.show, Show, k);
    WhenHas(s.orbitPaths.strokeWidth != 2.0, StrokeWidth, k);
    WhenHas(s.orbitPaths.strokeDasharray != "5,5", StrokeDasharray, k);
    WhenHas(s.orbitPaths.opacity != 0.7, Opacity, k);
    WhenHas(s.orbitPaths.hoverStrokeWidth != 3.0, HoverStrokeWidth, k);
    WhenHas(s.orbitPaths.hoverOpacity != 0.9, HoverOpacity, k);
    PathField(k);
  }

  /** The fields of the orbit-path block. */
  lemma PathField(k: Key)
    requires BlockOf(k) == Some(OrbitPathsOpen)
    ensures k == Show || k == StrokeWidth || k == StrokeDasharray || k == Opacity || k == HoverStrokeWidth || k == HoverOpacity
  {
  }

  lemma ColorsHas(s: Settings, k: Key)
    ensures k in ColorKeys(s.colors) <==> BlockOf(k) == Some(ColorsOpen) && Shown(s, k)
  {
    if k in ColorKeys(s.colors) {
      ColorsHasShown(s, k);
    } else if BlockOf(k) == Some(ColorsOpen) && Shown(s, k) {
      ColorsHasPrinted(s, k);
    }
  }

  lemma ColorsHasShown(s: Settings, k: Key)
    requires k in ColorKeys(s.colors)
    ensures BlockOf(k) == Some(ColorsOpen) && Shown(s, k)
  {
    WhenHas(s.colors.background != "rgba(0, 0, 0, 0.05)", Background, k);
    WhenHas(s.colors.ring != "rgba(100, 100, 100, 0.2)", Ring, k);
    WhenHas(s.colors.center != "#1a1a1a", CenterColor, k);
    WhenHas(s.colors.tooltip != "rgba(0, 0, 0, 0.9)", Tooltip, k);
  }

  lemma ColorsHasPrinted(s: Settings, k: Key)
    requires BlockOf(k) == Some(ColorsOpen) && Shown(s, k)
    ensures k in ColorKeys(s.colors)
  {
    WhenHas(s.colors.background != "rgba(0, 0, 0, 0.05)", Background, k);
    WhenHas(s.colors.ring != "rgba(100, 100, 100, 0.2)", Ring, k);
    WhenHas(s.colors.center != "#1a1a1a", CenterColor, k);
    WhenHas(s.colors.tooltip != "rgba(0, 0, 0, 0.9)", Tooltip, k);
    ColorField(k);
  }

  /** The fields of the colour block. */
  lemma ColorField(k: Key)
    requires BlockOf(k) == Some(ColorsOpen)
    ensures k == Background || k == Ring || k == CenterColor || k == Tooltip
  {
  }

  lemma BlockHas(open: Key, fields: seq<Key>, close: Key, k: Key)
    ensures k in Block(open, fields, close) <==> k in fields || (|fields| > 0 && (k == open || k == close))
  {
  }

  lemma AnimationBlockShown(s: Settings)
    ensures |AnimationKeys(s.animation)| > 0 <==> Shown(s, AnimationOpen)
  {
  }

  lemma PathsBlockShown(s: Settings)
    ensures |PathKeys(s.orbitPaths)| > 0 <==> Shown(s, OrbitPathsOpen)
  {
  }

  lemma ColorsBlockShown(s: Settings)
    ensures |ColorKeys(s.colors)| > 0 <==> Shown(s, ColorsOpen)
  {
  }

  lemma AnimationBlockHas(s: Settings, k: Key)
    ensures k in Block(AnimationOpen, AnimationKeys(s.animation), AnimationClose) <==> 9 <= Rank(k) < 16 && Shown(s, k)
  {
    AnimationHas(s, k);
    AnimationBlockShown(s);
    BlockHas(AnimationOpen, AnimationKeys(s.animation), AnimationClose, k);
  }

  lemma GroupingHas(s: Settings, k: Key)
    ensures k in GroupingKeys(s) <==> 16 <= Rank(k) < 18 && Shown(s, k)
  {
  }

  lemma PathsBlockHas(s: Settings, k: Key)
    ensures k in Block(OrbitPathsOpen, PathKeys(s.orbitPaths), OrbitPathsClose) <==> 18 <= Rank(k) < 26 && Shown(s, k)
  {
    PathsHas(s, k);
    PathsBlockShown(s);
    BlockHas(OrbitPathsOpen, PathKeys(s.orbitPaths), OrbitPathsClose, k);
  }

  lemma ColorsBlockHas(s: Settings, k: Key)
    ensures k in Block(ColorsOpen, ColorKeys(s.colors), ColorsClose) <==> 26 <= Rank(k) < 32 && Shown(s, k)
  {
    ColorsHas(s, k);
    ColorsBlockShown(s);
    BlockHas(ColorsOpen, ColorKeys(s.colors), ColorsClose, k);
  }

  /**
   * The snippet prints a line for a prop or field exactly when the reference
   * table says so: the fixed props always, every other setting when it
   * differs from the chart's default, and a block when one of its fields does.
   */
  lemma PreviewShowsCustomised(s: Settings, k: Key)
    ensures k in PreviewKeys(s) <==> Shown(s, k)
  {
    HeadHas(s, k);
    AnimationBlockHas(s, k);
    GroupingHas(s, k);
    PathsBlockHas(s, k);
    ColorsBlockHas(s, k);
    assert Rank(k) < 32;
  }

  lemma PropLineLabelled(k: Key, s: Settings, num: NumberText)
    requires BlockOf(k).None? && Rank(k) < 9
    ensures Label(k) <= LineText(k, s, num)
  {
  }

  lemma OuterLineLabelled(k: Key, s: Settings, num: NumberText)
    requires BlockOf(k).None? && 9 <= Rank(k)
    ensures Label(k) <= LineText(k, s, num)
  {
  }

  lemma AnimationLineLabelled(k: Key, s: Settings, num: NumberText)
    requires BlockOf(k) == Some(AnimationOpen)
    ensures Label(k) <= LineText(k, s, num)
  {
  }

  lemma PathLineLabelled(k: Key, s: Settings, num: NumberText)
    requires BlockOf(k) == Some(OrbitPathsOpen)
    ensures Label(k) <= LineText(k, s, num)
  {
  }

  lemma ColorLineLabelled(k: Key, s: Settings, num: NumberText)
    requires BlockOf(k) == Some(ColorsOpen)
    ensures Label(k) <= LineText(k, s, num)
  {
  }

  /** A line begins with the label of what it sets, so each printed line names its prop or field. */
  lemma LineLabelled(k: Key, s: Settings, num: NumberText)
    ensures Label(k) <= LineText(k, s, num)
  {
    if BlockOf(k).None? && Rank(k) < 9 {
      PropLineLabelled(k, s, num);
    } else if BlockOf(k).None? {
      OuterLineLabelled(k, s, num);
    } else if BlockOf(k) == Some(AnimationOpen) {
      AnimationLineLabelled(k, s, num);
    } else if BlockOf(k) == Some(OrbitPathsOpen) {
      PathLineLabelled(k, s, num);
    } else {
      ColorLineLabelled(k, s, num);
    }
  }

  /**
   * The data prop comes first, and the sort and three handler props are
   * always printed (in this order, by `PreviewInOrder`), whatever the settings.
   */
  lemma FixedPropsAlwaysPrinted(s: Settings)
    ensures |PreviewKeys(s)| > 0 && PreviewKeys(s)[0] == Data
    ensures SortableBy in PreviewKeys(s) && OnGroupSelect in PreviewKeys(s)
    ensures OnItemSelect in PreviewKeys(s) && OnDialSelect in PreviewKeys(s)
  {
    var keys := PreviewKeys(s);
    PreviewShowsCustomised(s, Data);
    PreviewShowsCustomised(s, SortableBy);
    PreviewShowsCustomised(s, OnGroupSelect);
    PreviewShowsCustomised(s, OnItemSelect);
    PreviewShowsCustomised(s, OnDialSelect);
    PreviewInOrder(s);
  }

  /** The `[]` special cases of the bucket printer print what the general rule would: brackets around the joined ids. */
  lemma BucketTextUniform(bucket: seq<string>, buckets: seq<seq<string>>)
    ensures BucketText(bucket) == "[" + QuotedIds(bucket) + "]"
    ensures |buckets| == 0 ==> GroupOrbitsText(buckets) == "  groupOrbits={[" + Join([], ", ") + "]}"
  {
  }

  /**
   * The snippet is `<RadialOrbit`, then one line per prop line, then `/>`:
   * when no printed value holds a line break, splitting it at line breaks
   * gives exactly those lines back.
   */
  lemma PreviewSplitsIntoLines(s: Settings, num: NumberText)
    requires forall k :: k in PreviewKeys(s) ==> '\n' !in LineText(k, s, num)
    ensures Split(PreviewText(s, num), '\n') == ["<RadialOrbit"] + Render(PreviewKeys(s), s, num) + ["/>"]
  {
    var lines := Render(PreviewKeys(s), s, num);
    var parts := ["<RadialOrbit"] + lines + ["/>"];
    assert |lines| > 0 by {
      assert PreviewKeys(s)[0] == Data;
    }
    JoinSnoc(["<RadialOrbit"] + lines, "/>", "\n");
    assert (["<RadialOrbit"] + lines)[1..] == lines;
    assert Join(["<RadialOrbit"] + lines, "\n") == "<RadialOrbit" + "\n" + Join(lines, "\n");
    assert "<RadialOrbit\n" == "<RadialOrbit" + "\n";
    assert Join(parts, "\n") == PreviewText(s, num);
    forall i | 0 <= i < |parts|
      ensures '\n' !in parts[i]
    {
      if 0 < i < |parts| - 1 {
        assert parts[i] == lines[i - 1];
        assert PreviewKeys(s)[i - 1] in PreviewKeys(s);
      }
    }
    SplitJoin(parts, '\n');
  }

  // ---------------------------------------------------------------------------
  // generateCodePreview, push by push
  // ---------------------------------------------------------------------------

  lemma RenderAppend(a: seq<Key>, b: seq<Key>, s: Settings, num: NumberText)
    ensures Render(a + b, s, num) == Render(a, s, num) + Render(b, s, num)
  {
  }

  /** `if (cond) lines.push(text)`, with the key the pushed line sets. */
  method PushWhen(lines: seq<string>, ghost keys: seq<Key>, c: bool, k: Key, text: string, s: Settings, num: NumberText)
    returns (pushed: seq<string>)
    requires lines == Render(keys, s, num)
    requires c ==> text == LineText(k, s, num)
    ensures pushed == Render(keys + When(c, k), s, num)
  {
    RenderAppend(keys, When(c, k), s, num);
    pushed := if c then lines + [text] else lines;
  }

  /** The data and size props. */
  method SizeProps(s: Settings, num: NumberText) returns (props: seq<string>)
    ensures props == Render([Data] + When(s.width != 800.0, Width) + When(s.height != 800.0, Height), s, num)
  {
    props := ["  data={data}"];
    props := PushWhen(props, [Data], s.width != 800.0, Width, "  width={" + num(s.width) + "}", s, num);
    props := PushWhen(props, [Data] + When(s.width != 800.0, Width), s.height != 800.0, Height, "  height={" + num(s.height) + "}", s, num);
  }

  /** The size props followed by the fixed sort and handler props. */
  method FixedProps(s: Settings, num: NumberText) returns (props: seq<string>)
    ensures props == Render([Data] + When(s.width != 800.0, Width) + When(s.height != 800.0, Height)
      + [SortableBy, OnGroupSelect, OnItemSelect, OnDialSelect], s, num)
  {
    props := SizeProps(s, num);
    RenderAppend([Data] + When(s.width != 800.0, Width) + When(s.height != 800.0, Height),
      [SortableBy, OnGroupSelect, OnItemSelect, OnDialSelect], s, num);
    props := props + ["  sortableBy=\"value\""];
    props := props + ["  onGroupSelect={handleGroupSelect}"];
    props := props + ["  onItemSelect={handleItemSelect}"];
    props := props + ["  onDialSelect={handleDialSelect}"];
  }

  /** The size props, the fixed props, the item shape and the custom renderer. */
  method HeadProps(s: Settings, num: NumberText) returns (props: seq<string>)
    ensures props == Render(HeadKeys(s), s, num)
  {
    ghost var fixed := [Data] + When(s.width != 800.0, Width) + When(s.height != 800.0, Height)
      + [SortableBy, OnGroupSelect, OnItemSelect, OnDialSelect];
    props := FixedProps(s, num);
    props := PushWhen(props, fixed, s.itemShape != "circle", ItemShape, "  itemShape=\"" + s.itemShape + "\"", s, num);
    props := PushWhen(props, fixed + When(s.itemShape != "circle", ItemShape),
      s.hasCustomRenderer || s.showCustomRenderer, RenderItem, "  renderItem={customItemRenderer}", s, num);
  }

  /** The rotation, speed and hover-scale fields of the animation block. */
  method MotionProps(s: Settings, num: NumberText) returns (animationProps: seq<string>)
    ensures animationProps == Render(When(!s.animation.orbitRotation, OrbitRotation)
      + When(s.animation.orbitSpeedBase != 60.0, OrbitSpeedBase) + When(s.animation.hoverScale != 1.1, HoverScale), s, num)
  {
    var a := s.animation;
    ghost var k1 := When(!a.orbitRotation, OrbitRotation);
    animationProps := PushWhen([], [], !a.orbitRotation, OrbitRotation, "    orbitRotation: false", s, num);
    animationProps := PushWhen(animationProps, k1, a.orbitSpeedBase != 60.0, OrbitSpeedBase,
      "    orbitSpeedBase: " + num(a.orbitSpeedBase), s, num);
    animationProps := PushWhen(animationProps, k1 + When(a.orbitSpeedBase != 60.0, OrbitSpeedBase),
      a.hoverScale != 1.1, HoverScale, "    hoverScale: " + num(a.hoverScale), s, num);
  }

  /** The fields of the `animation={{ ... }}` block. */
  method AnimationProps(s: Settings, num: NumberText) returns (animationProps: seq<string>)
    ensures animationProps == Render(AnimationKeys(s.animation), s, num)
  {
    var a := s.animation;
    ghost var k3 := When(!a.orbitRotation, OrbitRotation) + When(a.orbitSpeedBase != 60.0, OrbitSpeedBase)
      + When(a.hoverScale != 1.1, HoverScale);
    animationProps := MotionProps(s, num);
    var orbitsLine := "";
    if a.orbits.Some? {
      if |a.orbits.value| == 0 {
        orbitsLine := "    orbits: []";
      } else {
        orbitsLine := "    orbits: [" + QuotedIds(a.orbits.value) + "]";
      }
    }
    animationProps := PushWhen(animationProps, k3, a.orbits.Some?, Orbits, orbitsLine, s, num);
    var loaded := a.dataLoadedAnimation.Some? && a.dataLoadedAnimation.value != Sides;
    var name := if a.dataLoadedAnimation.Some? then LoadAnimationName(a.dataLoadedAnimation.value) else "sides";
    animationProps := PushWhen(animationProps, k3 + When(a.orbits.Some?, Orbits), loaded, DataLoadedAnimation,
      "    dataLoadedAnimation: '" + name + "'", s, num);
  }

  /** The `groupBy` and `groupOrbits` props. */
  method GroupingProps(s: Settings, num: NumberText) returns (props: seq<string>)
    ensures props == Render(GroupingKeys(s), s, num)
  {
    props := [];
    if s.groupBy {
      props := props + ["  groupBy={true}"];
    }
    if s.groupOrbits.Some? {
      var groupOrbits := s.groupOrbits.value;
      if |groupOrbits| == 0 {
        props := props + ["  groupOrbits={[]}"];
      } else {
        var orbitsStr := Join(seq(|groupOrbits|, i requires 0 <= i < |groupOrbits| => BucketText(groupOrbits[i])), ", ");
        props := props + ["  groupOrbits={[" + orbitsStr + "]}"];
      }
    }
  }

  /** The show, stroke-width and dash fields of the orbit-path block. */
  method StrokeProps(s: Settings, num: NumberText) returns (orbitPathProps: seq<string>)
    ensures orbitPathProps == Render(When(!s.orbitPaths.show, Show) + When(s.orbitPaths.strokeWidth != 2.0, StrokeWidth)
      + When(s.orbitPaths.strokeDasharray != "5,5", StrokeDasharray), s, num)
  {
    var p := s.orbitPaths;
    ghost var k1 := When(!p.show, Show);
    orbitPathProps := PushWhen([], [], !p.show, Show, "    show: false", s, num);
    orbitPathProps := PushWhen(orbitPathProps, k1, p.strokeWidth != 2.0, StrokeWidth, "    strokeWidth: " + num(p.strokeWidth), s, num);
    orbitPathProps := PushWhen(orbitPathProps, k1 + When(p.strokeWidth != 2.0, StrokeWidth), p.strokeDasharray != "5,5",
      StrokeDasharray, "    strokeDasharray: '" + p.strokeDasharray + "'", s, num);
  }

  /** The fields of the `orbitPaths={{ ... }}` block. */
  method PathProps(s: Settings, num: NumberText) returns (orbitPathProps: seq<string>)
    ensures orbitPathProps == Render(PathKeys(s.orbitPaths), s, num)
  {
    var p := s.orbitPaths;
    ghost var k3 := When(!p.show, Show) + When(p.strokeWidth != 2.0, StrokeWidth) + When(p.strokeDasharray != "5,5", StrokeDasharray);
    ghost var k4 := k3 + When(p.opacity != 0.7, Opacity);
    orbitPathProps := StrokeProps(s, num);
    orbitPathProps := PushWhen(orbitPathProps, k3, p.opacity != 0.7, Opacity, "    opacity: " + num(p.opacity), s, num);
    orbitPathProps := PushWhen(orbitPathProps, k4, p.hoverStrokeWidth != 3.0, HoverStrokeWidth,
      "    hoverStrokeWidth: " + num(p.hoverStrokeWidth), s, num);
    orbitPathProps := PushWhen(orbitPathProps, k4 + When(p.hoverStrokeWidth != 3.0, HoverStrokeWidth), p.hoverOpacity != 0.9,
      HoverOpacity, "    hoverOpacity: " + num(p.hoverOpacity), s, num);
  }

  /** The background and ring fields of the colour block. */
  method BackdropProps(s: Settings, num: NumberText) returns (colorProps: seq<string>)
    ensures colorProps == Render(When(s.colors.background != "rgba(0, 0, 0, 0.05)", Background)
      + When(s.colors.ring != "rgba(100, 100, 100, 0.2)", Ring), s, num)
  {
    var c := s.colors;
    colorProps := PushWhen([], [], c.background != "rgba(0, 0, 0, 0.05)", Background, "    background: '" + c.background + "'", s, num);
    colorProps := PushWhen(colorProps, When(c.background != "rgba(0, 0, 0, 0.05)", Background),
      c.ring != "rgba(100, 100, 100, 0.2)", Ring, "    ring: '" + c.ring + "'", s, num);
  }

  /** The fields of the `colors={{ ... }}` block. */
  method ColorProps(s: Settings, num: NumberText) returns (colorProps: seq<string>)
    ensures colorProps == Render(ColorKeys(s.colors), s, num)
  {
    var c := s.colors;
    ghost var k2 := When(c.background != "rgba(0, 0, 0, 0.05)", Background) + When(c.ring != "rgba(100, 100, 100, 0.2)", Ring);
    colorProps := BackdropProps(s, num);
    colorProps := PushWhen(colorProps, k2, c.center != "#1a1a1a", CenterColor, "    center: '" + c.center + "'", s, num);
    colorProps := PushWhen(colorProps, k2 + When(c.center != "#1a1a1a", CenterColor), c.tooltip != "rgba(0, 0, 0, 0.9)",
      Tooltip, "    tooltip: '" + c.tooltip + "'", s, num);
  }

  /** `if (fields.length > 0) props.push(open, ...fields, '  }}')`. */
  method PushBlock(props: seq<string>, ghost keys: seq<Key>, open: Key, openText: string, fields: seq<string>,
    ghost fieldKeys: seq<Key>, close: Key, s: Settings, num: NumberText)
    returns (pushed: seq<string>)
    requires props == Render(keys, s, num) && fields == Render(fieldKeys, s, num)
    requires openText == LineText(open, s, num) && LineText(close, s, num) == "  }}"
    ensures pushed == Render(keys + Block(open, fieldKeys, close), s, num)
  {
    RenderAppend(keys, Block(open, fieldKeys, close), s, num);
    if |fields| > 0 {
      BlockRender(open, fieldKeys, close, s, num);
      pushed := props + ([openText] + fields + ["  }}"]);
    } else {
      pushed := props;
      assert Render(Block(open, fieldKeys, close), s, num) == [];
    }
  }

  /** The lines of a block with fields: the opening line, the fields' lines and the closing line. */
  lemma BlockRender(open: Key, fieldKeys: seq<Key>, close: Key, s: Settings, num: NumberText)
    requires |fieldKeys| > 0
    ensures Render(Block(open, fieldKeys, close), s, num)
      == [LineText(open, s, num)] + Render(fieldKeys, s, num) + [LineText(close, s, num)]
  {
    calc {
      Render(Block(open, fieldKeys, close), s, num);
      Render([open] + fieldKeys + [close], s, num);
      == { RenderAppend([open] + fieldKeys, [close], s, num); }
      Render([open] + fieldKeys, s, num) + Render([close], s, num);
      == { RenderAppend([open], fieldKeys, s, num); }
      Render([open], s, num) + Render(fieldKeys, s, num) + Render([close], s, num);
      == { RenderSingle(open, s, num); RenderSingle(close, s, num); }
      [LineText(open, s, num)] + Render(fieldKeys, s, num) + [LineText(close, s, num)];
    }
  }

  lemma RenderSingle(k: Key, s: Settings, num: NumberText)
    ensures Render([k], s, num) == [LineText(k, s, num)]
  {
  }

  lemma PreviewKeysSplit(s: Settings)
    ensures HeadKeys(s) + Block(AnimationOpen, AnimationKeys(s.animation), AnimationClose) + GroupingKeys(s)
      + Block(OrbitPathsOpen, PathKeys(s.orbitPaths), OrbitPathsClose) + Block(ColorsOpen, ColorKeys(s.colors), ColorsClose)
      == PreviewKeys(s)
  {
  }

  /** The props up to and including `groupOrbits`. */
  method FrontProps(s: Settings, num: NumberText) returns (props: seq<string>)
    ensures props == Render(HeadKeys(s) + Block(AnimationOpen, AnimationKeys(s.animation), AnimationClose) + GroupingKeys(s), s, num)
  {
    ghost var head := HeadKeys(s);
    ghost var anim := Block(AnimationOpen, AnimationKeys(s.animation), AnimationClose);
    props := HeadProps(s, num);
    var animationProps := AnimationProps(s, num);
    props := PushBlock(props, head, AnimationOpen, "  animation={{", animationProps, AnimationKeys(s.animation), AnimationClose, s, num);
    var groupingProps := GroupingProps(s, num);
    RenderAppend(head + anim, GroupingKeys(s), s, num);
    props := props + groupingProps;
  }

  /** The props up to and including the `orbitPaths={{ ... }}` block. */
  method StyledProps(s: Settings, num: NumberText) returns (props: seq<string>)
    ensures props == Render(HeadKeys(s) + Block(AnimationOpen, AnimationKeys(s.animation), AnimationClose) + GroupingKeys(s)
      + Block(OrbitPathsOpen, PathKeys(s.orbitPaths), OrbitPathsClose), s, num)
  {
    ghost var front := HeadKeys(s) + Block(AnimationOpen, AnimationKeys(s.animation), AnimationClose) + GroupingKeys(s);
    props := FrontProps(s, num);
    var orbitPathProps := PathProps(s, num);
    props := PushBlock(props, front, OrbitPathsOpen, "  orbitPaths={{", orbitPathProps, PathKeys(s.orbitPaths), OrbitPathsClose, s, num);
  }

  /** Every prop line, in the component's order. */
  method PreviewProps(s: Settings, num: NumberText) returns (props: seq<string>)
    ensures props == Render(PreviewKeys(s), s, num)
  {
    ghost var styled := HeadKeys(s) + Block(AnimationOpen, AnimationKeys(s.animation), AnimationClose) + GroupingKeys(s)
      + Block(OrbitPathsOpen, PathKeys(s.orbitPaths), OrbitPathsClose);
    props := StyledProps(s, num);
    var colorProps := ColorProps(s, num);
    props := PushBlock(props, styled, ColorsOpen, "  colors={{", colorProps, ColorKeys(s.colors), ColorsClose, s, num);
    PreviewKeysSplit(s);
  }

  /**
   * `generateCodePreview`: the props array filled in the component's order,
   * joined with newlines inside the `<RadialOrbit` ... `/>` frame.
   */
  method GenerateCodePreview(s: Settings, num: NumberText) returns (code: string)
    ensures code == PreviewText(s, num)
    ensures |code| >= 16 && code[..13] == "<RadialOrbit\n" && code[|code| - 3..] == "\n/>"
  {
    var props := PreviewProps(s, num);
    code := "<RadialOrbit\n" + Join(props, "\n") + "\n/>";
  }
}
