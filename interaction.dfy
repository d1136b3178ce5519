/**
 * The hover, tooltip and dial state of the orbit chart
 * (src/components/RadialOrbit.tsx, lines 53-62 and 238-296). Each handler is
 * a transition on the current state; the class holds that state and its
 * methods are proved to perform the transitions.
 */
module OrbitInteraction {
  import opened OrbitTypes

  /** What a visible tooltip shows. */
  datatype TooltipContent =
    | NoContent
    | GroupTip(title: string, itemCount: nat)
    | ItemTip(title: string, value: real, meta: Option<seq<MetaEntry>>)

  datatype Tooltip = Tooltip(visible: bool, x: real, y: real, content: TooltipContent)

  /** The tooltip state the component starts with and returns to when it hides the tooltip. */
  const HIDDEN: Tooltip := Tooltip(false, 0.0, 0.0, NoContent)

  /** The pointer coordinates of the mouse event a handler receives. */
  datatype Pointer = Pointer(clientX: real, clientY: real)

  /** The four state variables of the component and the `onDialSelect` calls made so far. */
  datatype View = View(
    hoveredGroup: Option<string>,
    hoveredItem: Option<string>,
    selectedDial: Option<int>,
    tooltip: Tooltip,
    dialSelections: seq<int>)

  /** `x?.id || null`: a missing object and an empty id both mean that nothing is hovered. */
  function HoverKey(id: Option<string>): (key: Option<string>)
    ensures key.Some? <==> id.Some? && id.value != ""
    ensures key.Some? ==> key == id
  {
    if id.Some? && id.value != "" then id else None
  }

  /** `Object.entries(meta).slice(0, 3)`: the first three entries, or all of them when there are fewer. */
  function FirstMeta(meta: seq<MetaEntry>): (shown: seq<MetaEntry>)
    ensures |shown| <= 3 && |shown| <= |meta|
    ensures |shown| == |meta| || |shown| == 3
    ensures shown == meta[..|shown|]
  {
    if |meta| <= 3 then meta else meta[..3]
  }

  /** A hidden tooltip is the initial one, a visible one has something to show, and a hovered id is never empty. */
  ghost predicate ViewValid(v: View)
  {
    && (!v.tooltip.visible ==> v.tooltip == HIDDEN)
    && (v.tooltip.visible ==> !v.tooltip.content.NoContent?)
    && (v.hoveredGroup.Some? ==> v.hoveredGroup.value != "")
    && (v.hoveredItem.Some? ==> v.hoveredItem.value != "")
  }

  function InitialView(): (v: View)
    ensures ViewValid(v)
    ensures v.hoveredGroup.None? && v.hoveredItem.None? && v.selectedDial.None?
    ensures !v.tooltip.visible && v.dialSelections == []
  {
    View(None, None, None, HIDDEN, [])
  }

  /**
   * `handleGroupHover`: the hovered group becomes the group's key; with both
   * a group and an event the tooltip shows the group's title and item count
   * at the pointer, otherwise it is hidden. Nothing else changes.
   */
  function GroupHover(v: View, group: Option<Group>, event: Option<Pointer>): (w: View)
    requires ViewValid(v)
    ensures ViewValid(w)
    ensures w.hoveredGroup == HoverKey(if group.Some? then Some(group.value.id) else None)
    ensures w.tooltip.visible <==> group.Some? && event.Some?
    ensures w.tooltip.visible ==>
      w.tooltip == Tooltip(true, event.value.clientX, event.value.clientY, GroupTip(group.value.title, |group.value.items|))
    ensures w.hoveredItem == v.hoveredItem && w.selectedDial == v.selectedDial && w.dialSelections == v.dialSelections
  {
    var tooltip :=
      if group.Some? && event.Some? then
        Tooltip(true, event.value.clientX, event.value.clientY, GroupTip(group.value.title, |group.value.items|))
      else HIDDEN;
    v.(hoveredGroup := HoverKey(if group.Some? then Some(group.value.id) else None), tooltip := tooltip)
  }

  /**
   * `handleItemHover`: the hovered item becomes the item's key; with both an
   * item and an event the tooltip shows the item's title, value and its
   * first three meta entries (all of them when there are fewer) at the pointer; otherwise the tooltip is
   * hidden only when no group is hovered and left as it was when one is.
   */
  function ItemHover(v: View, item: Option<Item>, event: Option<Pointer>): (w: View)
    requires ViewValid(v)
    ensures ViewValid(w)
    ensures w.hoveredItem == HoverKey(if item.Some? then Some(item.value.id) else None)
    ensures item.Some? && event.Some? ==>
      && w.tooltip.visible
      && w.tooltip.x == event.value.clientX && w.tooltip.y == event.value.clientY
      && w.tooltip.content.ItemTip?
      && w.tooltip.content.title == item.value.title && w.tooltip.content.value == item.value.value
      && w.tooltip.content.meta == (if item.value.meta.Some? then Some(FirstMeta(item.value.meta.value)) else None)
    ensures !(item.Some? && event.Some?) ==> w.tooltip == (if v.hoveredGroup.None? then HIDDEN else v.tooltip)
    ensures w.hoveredGroup == v.hoveredGroup && w.selectedDial == v.selectedDial && w.dialSelections == v.dialSelections
  {
    var key := HoverKey(if item.Some? then Some(item.value.id) else None);
    if item.Some? && event.Some? then
      var meta := if item.value.meta.Some? then Some(FirstMeta(item.value.meta.value)) else None;
      v.(hoveredItem := key,
         tooltip := Tooltip(true, event.value.clientX, event.value.clientY, ItemTip(item.value.title, item.value.value, meta)))
    else if v.hoveredGroup.None? then
      v.(hoveredItem := key, tooltip := HIDDEN)
    else
      v.(hoveredItem := key)
  }

  /** `handleDialClick`: the dial index is selected, and `onDialSelect` receives it once when the caller supplied one. */
  function DialClick(v: View, index: int, hasDialCallback: bool): (w: View)
    requires ViewValid(v)
    ensures ViewValid(w)
    ensures w.selectedDial == Some(index)
    ensures w.dialSelections == if hasDialCallback then v.dialSelections + [index] else v.dialSelections
    ensures w.hoveredGroup == v.hoveredGroup && w.hoveredItem == v.hoveredItem && w.tooltip == v.tooltip
  {
    v.(selectedDial := Some(index), dialSelections := if hasDialCallback then v.dialSelections + [index] else v.dialSelections)
  }

  /** Leaving an item while its group is still hovered keeps the group's tooltip on screen. */
  lemma ItemLeaveKeepsGroupTooltip(v: View, group: Group, item: Item, p: Pointer, q: Pointer)
    requires ViewValid(v) && group.id != ""
    ensures var inGroup := GroupHover(v, Some(group), Some(p));
      var onItem := ItemHover(inGroup, Some(item), Some(q));
      var left := ItemHover(onItem, None, None);
      && left.hoveredItem.None?
      && left.hoveredGroup == Some(group.id)
      && left.tooltip == onItem.tooltip
      && left.tooltip.visible
  {
  }

  /** Leaving a group hides the tooltip whatever was hovered, and a later item leave keeps it hidden. */
  lemma GroupLeaveThenItemLeave(v: View, e: Option<Pointer>, f: Option<Pointer>)
    requires ViewValid(v)
    ensures var left := ItemHover(GroupHover(v, None, e), None, f);
      left.tooltip == HIDDEN && left.hoveredGroup.None? && left.hoveredItem.None?
  {
  }

  /** One handler call. */
  datatype Event =
    | GroupEvent(group: Option<Group>, pointer: Option<Pointer>)
    | ItemEvent(item: Option<Item>, pointer: Option<Pointer>)
    | DialEvent(index: int)

  function Step(v: View, e: Event, hasDialCallback: bool): (w: View)
    requires ViewValid(v)
    ensures ViewValid(w)
  {
    match e
    case GroupEvent(g, p) => GroupHover(v, g, p)
    case ItemEvent(i, p) => ItemHover(v, i, p)
    case DialEvent(k) => DialClick(v, k, hasDialCallback)
  }

  /** A sequence of handler calls, one after another; any such run keeps the state valid. */
  function Run(v: View, events: seq<Event>, hasDialCallback: bool): (w: View)
    requires ViewValid(v)
    ensures ViewValid(w)
    decreases |events|
  {
    if events == [] then v
    else Run(Step(v, events[0], hasDialCallback), events[1..], hasDialCallback)
  }

  /** The dial indices clicked in a run, in click order. */
  function DialClicks(events: seq<Event>): (clicks: seq<int>)
    ensures |clicks| <= |events|
  {
    if events == [] then []
    else (if events[0].DialEvent? then [events[0].index] else []) + DialClicks(events[1..])
  }

  /** Over any run, `onDialSelect` receives exactly the clicked dial indices, in click order, and only when supplied. */
  lemma {:induction false} RunDialSelections(v: View, events: seq<Event>, hasDialCallback: bool)
    requires ViewValid(v)
    ensures Run(v, events, hasDialCallback).dialSelections
      == v.dialSelections + (if hasDialCallback then DialClicks(events) else [])
    decreases |events|
  {
    if events != [] {
      var w := Step(v, events[0], hasDialCallback);
      RunDialSelections(w, events[1..], hasDialCallback);
      assert DialClicks(events) == (if events[0].DialEvent? then [events[0].index] else []) + DialClicks(events[1..]);
    }
  }

  /** After a run the selected dial is the last one clicked, or the earlier selection when no dial was clicked. */
  lemma {:induction false} RunSelectedDial(v: View, events: seq<Event>, hasDialCallback: bool)
    requires ViewValid(v)
    ensures var clicks := DialClicks(events);
      Run(v, events, hasDialCallback).selectedDial == if clicks == [] then v.selectedDial else Some(clicks[|clicks| - 1])
    decreases |events|
  {
    if events != [] {
      var w := Step(v, events[0], hasDialCallback);
      RunSelectedDial(w, events[1..], hasDialCallback);
    }
  }

  /** The component's interaction state, updated in place by its handlers. */
  class InteractionState {
    var hoveredGroup: Option<string>
    var hoveredItem: Option<string>
    var selectedDial: Option<int>
    var tooltip: Tooltip
    /** The indices passed to `onDialSelect`, in call order. */
    var dialSelections: seq<int>
    /** Whether the caller supplied `onDialSelect`. */
    const hasDialCallback: bool

    function Current(): View
      reads this
    {
      View(hoveredGroup, hoveredItem, selectedDial, tooltip, dialSelections)
    }

    ghost predicate Valid()
      reads this
    {
      ViewValid(Current())
    }

    constructor(hasDialCallback: bool)
      ensures Valid() && Current() == InitialView() && this.hasDialCallback == hasDialCallback
    {
      hoveredGroup := None;
      hoveredItem := None;
      selectedDial := None;
      tooltip := HIDDEN;
      dialSelections := [];
      this.hasDialCallback := hasDialCallback;
    }

    method HandleGroupHover(group: Option<Group>, event: Option<Pointer>)
      requires Valid()
      modifies this
      ensures Valid()
      ensures Current() == GroupHover(old(Current()), group, event)
    {
      hoveredGroup := HoverKey(if group.Some? then Some(group.value.id) else None);
      if group.Some? && event.Some? {
        tooltip := Tooltip(true, event.value.clientX, event.value.clientY, GroupTip(group.value.title, |group.value.items|));
      } else {
        tooltip := HIDDEN;
      }
    }

    method HandleItemHover(item: Option<Item>, event: Option<Pointer>)
      requires Valid()
      modifies this
      ensures Valid()
      ensures Current() == ItemHover(old(Current()), item, event)
    {
      hoveredItem := HoverKey(if item.Some? then Some(item.value.id) else None);
      if item.Some? && event.Some? {
        var meta := if item.value.meta.Some? then Some(FirstMeta(item.value.meta.value)) else None;
        tooltip := Tooltip(true, event.value.clientX, event.value.clientY, ItemTip(item.value.title, item.value.value, meta));
      } else if hoveredGroup.None? {
        tooltip := HIDDEN;
      }
    }

    method HandleDialClick(index: int)
      requires Valid()
      modifies this
      ensures Valid()
      ensures Current() == DialClick(old(Current()), index, hasDialCallback)
    {
      selectedDial := Some(index);
      if hasDialCallback {
        dialSelections := dialSelections + [index];
      }
    }
  }
}
