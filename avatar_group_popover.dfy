/**
 * The render state of the avatar group's overflow popover: the "show more"
 * button that sits after the visible avatars of a group and opens a popover
 * listing the remaining people.
 *
 * `UseAvatarGroupPopover` derives the whole state from the group's ambient
 * `size` and `layout` (passed in explicitly here), the caller's props, the
 * number of children and the current open flag. `PopoverChangeHandler` is the
 * one stateful piece: the handler that forwards a popover open change to the
 * caller and then to the state setter.
 */
module AvatarGroupPopover {
  import opened Wrappers
  import opened Props
  import Decimal

  /** The group layouts; an absent group context leaves `layout` undefined. */
  datatype Layout = Spread | Stack | Pie

  /** How the trigger button represents the people not shown. */
  datatype Indicator = Icon | Count

  /** The two values the avatar group context provides. */
  datatype GroupContext = GroupContext(size: Option<int>, layout: Option<Layout>)

  /** What the sub-components of the popover are rendered as. */
  datatype ComponentType = Intrinsic(tag: string) | PopoverComponent | PopoverSurfaceComponent | TooltipComponent

  datatype Components = Components(
    root: ComponentType,
    triggerButton: ComponentType,
    content: ComponentType,
    popoverSurface: ComponentType,
    tooltip: ComponentType)

  /** A slot resolution request: the caller's shorthand for one sub-part,
      whether the slot is required, and the default props it is resolved against.
      The resolution itself belongs to the component library. */
  datatype ShorthandRequest = ShorthandRequest(shorthand: Value, required: bool, defaultProps: Option<Props>)

  datatype State = State(
    popoverOpen: bool,
    layout: Option<Layout>,
    indicator: Indicator,
    size: int,
    components: Components,
    root: Props,
    triggerButton: ShorthandRequest,
    content: ShorthandRequest,
    popoverSurface: ShorthandRequest,
    tooltip: ShorthandRequest)

  /** Below this avatar size the default indicator is the icon. */
  const IconSizeThreshold := 24

  /** Counts above this are shown as "99+". */
  const MaxShownCount := 99

  /** The props the hook destructures out of the caller's props. */
  const DestructuredKeys: set<string> := {"indicator", "count", "children"}

  /** The props of the popover root that the caller cannot override. */
  const PinnedKeys: set<string> := {"open", "onOpenChange"}

  const RootDefaults: Props := map["children" := EmptyFragment, "size" := Str("small"), "trapFocus" := Bool(true)]

  const TooltipDefaults: Props := map["content" := Str("View more people."), "relationship" := Str("label")]

  const DefaultComponents: Components :=
    Components(PopoverComponent, Intrinsic("button"), Intrinsic("ul"), PopoverSurfaceComponent, TooltipComponent)

  // ---------------------------------------------------------------------------
  // The caller's props, as their declared types allow them.

  predicate IsIndicatorValue(v: Value)
  {
    v == Undefined || v == Str("icon") || v == Str("count")
  }

  predicate IsCountValue(v: Value)
  {
    v == Undefined || v.Num?
  }

  /** Optional chaining `f?.(...)` calls `f` unless it is `null` or `undefined`;
      the declared type leaves only functions otherwise. */
  predicate IsOptionalCallback(v: Value)
  {
    v == Undefined || v == Null || v.Fn?
  }

  predicate WellTyped(props: Props)
  {
    && IsIndicatorValue(Get(props, "indicator"))
    && IsCountValue(Get(props, "count"))
    && IsOptionalCallback(Get(props, "onOpenChange"))
  }

  /** The caller's explicit indicator; a destructuring default replaces only `undefined`. */
  function GivenIndicator(props: Props): (i: Option<Indicator>)
    requires WellTyped(props)
    ensures i == None <==> Get(props, "indicator") == Undefined
    ensures i == Some(Icon) <==> Get(props, "indicator") == Str("icon")
    ensures i == Some(Count) <==> Get(props, "indicator") == Str("count")
  {
    match Get(props, "indicator")
    case Str(s) => if s == "icon" then Some(Icon) else Some(Count)
    case _ => None
  }

  /** The caller's explicit count, if any. */
  function GivenCount(props: Props): (c: Option<int>)
    requires WellTyped(props)
    ensures c == None <==> Get(props, "count") == Undefined
    ensures c.Some? ==> Get(props, "count") == Num(c.value)
  {
    match Get(props, "count")
    case Num(n) => Some(n)
    case _ => None
  }

  // ---------------------------------------------------------------------------
  // The derivation.

  /** The context's size when it has one, else the group's default size. */
  function EffectiveSize(ctx: GroupContext, defaultAvatarGroupSize: int): (size: int)
    ensures ctx.size.Some? ==> size == ctx.size.value
    ensures ctx.size.None? ==> size == defaultAvatarGroupSize
  {
    match ctx.size
    case Some(s) => s
    case None => defaultAvatarGroupSize
  }

  /** An explicit indicator wins; otherwise small avatars get the icon. */
  function EffectiveIndicator(props: Props, size: int): (i: Indicator)
    requires WellTyped(props)
    ensures GivenIndicator(props).Some? ==> i == GivenIndicator(props).value
    ensures GivenIndicator(props).None? ==> (i == Icon <==> size < IconSizeThreshold)
  {
    match GivenIndicator(props)
    case Some(given) => given
    case None => if size < IconSizeThreshold then Icon else Count
  }

  /** An explicit count wins; otherwise the number of children. */
  function EffectiveCount(props: Props, childCount: nat): (c: int)
    requires WellTyped(props)
    ensures GivenCount(props).Some? ==> c == GivenCount(props).value
    ensures GivenCount(props).None? ==> c == childCount
  {
    match GivenCount(props)
    case Some(n) => n
    case None => childCount
  }

  /** The text of a count indicator: "99+" for counts above 99, otherwise a
      plus sign followed by the count in decimal, which reads back as the count. */
  function CountLabel(count: int): (text: string)
    ensures text == "99+" <==> count > MaxShownCount
    ensures count <= MaxShownCount ==>
      |text| >= 2 && text[0] == '+' && Decimal.ParseInt(text[1..]) == Some(count)
    ensures count <= MaxShownCount ==>
      Decimal.IsCanonicalInt(text[1..]) && text == "+" + Decimal.IntToString(count)
  {
    if count > MaxShownCount then "99+"
    else
      var text := "+" + Decimal.IntToString(count);
      assert text[1..] == Decimal.IntToString(count);
      Decimal.IntToStringRoundTrip(count);
      text
  }

  /** The trigger button's children: decided by the layout first, then by the indicator. */
  function TriggerButtonChildren(layout: Option<Layout>, indicator: Indicator, count: int): (c: Value)
    ensures c == Null <==> layout == Some(Pie)
    ensures c == MoreGlyph <==> layout != Some(Pie) && indicator == Icon
    ensures c.Str? <==> layout != Some(Pie) && indicator == Count
    ensures c.Str? ==> c.s == CountLabel(count)
  {
    if layout == Some(Pie) then Null
    else
      match indicator
      case Icon => MoreGlyph
      case Count => Str(CountLabel(count))
  }

  /** The caller's props without the destructured `indicator`, `count` and `children`. */
  function RestOfProps(props: Props): (rest: Props)
    ensures rest.Keys == props.Keys - DestructuredKeys
    ensures forall k :: k in rest ==> rest[k] == props[k]
  {
    Omit(props, DestructuredKeys)
  }

  /** The popover root's props: the defaults, overridden by the caller's
      remaining props, with the open flag and the change handler pinned. */
  function RootProps(props: Props, popoverOpen: bool): (root: Props)
    ensures root.Keys == RootDefaults.Keys + (props.Keys - DestructuredKeys) + PinnedKeys
    ensures root["open"] == Bool(popoverOpen)
    ensures root["onOpenChange"] == OwnOpenChangeHandler
    ensures root["children"] == EmptyFragment
    ensures "indicator" !in root && "count" !in root
    ensures forall k :: k in props && k !in DestructuredKeys && k !in PinnedKeys ==> root[k] == props[k]
    ensures forall k :: k in RootDefaults && k !in props && k !in PinnedKeys ==> root[k] == RootDefaults[k]
  {
    Merge(Merge(RootDefaults, RestOfProps(props)), map["open" := Bool(popoverOpen), "onOpenChange" := OwnOpenChangeHandler])
  }

  /** The trigger button: required, defaulting to the computed children and `type: 'button'`. */
  function TriggerButtonRequest(props: Props, children: Value): (r: ShorthandRequest)
    ensures r.shorthand == Get(props, "triggerButton") && r.required
    ensures r.defaultProps.Some? && r.defaultProps.value.Keys == {"children", "type"}
    ensures r.defaultProps.value["children"] == children && r.defaultProps.value["type"] == Str("button")
  {
    ShorthandRequest(Get(props, "triggerButton"), true, Some(map["children" := children, "type" := Str("button")]))
  }

  /** The content list: required, labelled "Overflow", holding the original
      children, with list role and in the tab order. */
  function ContentRequest(props: Props): (r: ShorthandRequest)
    ensures r.shorthand == Get(props, "content") && r.required
    ensures r.defaultProps.Some? && r.defaultProps.value.Keys == {"aria-label", "children", "role", "tabIndex"}
    ensures r.defaultProps.value["aria-label"] == Str("Overflow")
    ensures r.defaultProps.value["children"] == Get(props, "children")
    ensures r.defaultProps.value["role"] == Str("list") && r.defaultProps.value["tabIndex"] == Num(0)
  {
    ShorthandRequest(Get(props, "content"), true, Some(map[
      "aria-label" := Str("Overflow"),
      "children" := Get(props, "children"),
      "role" := Str("list"),
      "tabIndex" := Num(0)]))
  }

  /** The popover surface: required, with no default props. */
  function PopoverSurfaceRequest(props: Props): (r: ShorthandRequest)
    ensures r.shorthand == Get(props, "popoverSurface") && r.required && r.defaultProps.None?
  {
    ShorthandRequest(Get(props, "popoverSurface"), true, None)
  }

  /** The tooltip: required, with a fixed description used as the button's label. */
  function TooltipRequest(props: Props): (r: ShorthandRequest)
    ensures r.shorthand == Get(props, "tooltip") && r.required
    ensures r.defaultProps.Some? && r.defaultProps.value.Keys == {"content", "relationship"}
    ensures r.defaultProps.value["content"] == Str("View more people.")
    ensures r.defaultProps.value["relationship"] == Str("label")
  {
    ShorthandRequest(Get(props, "tooltip"), true, Some(TooltipDefaults))
  }

  /** The trigger content a state asks for (`undefined` if it asks for none). */
  function TriggerContent(s: State): Value
  {
    match s.triggerButton.defaultProps
    case Some(d) => Get(d, "children")
    case None => Undefined
  }

  /** The render state for one pass of the hook. `popoverOpen` is the value of
      the controllable open state, which the component library resolves from
      `open`, `defaultOpen` and the initial `false`. */
  function UseAvatarGroupPopover(
    ctx: GroupContext, defaultAvatarGroupSize: int, props: Props, childCount: nat, popoverOpen: bool): (s: State)
    requires WellTyped(props)
    ensures s.popoverOpen == popoverOpen && s.layout == ctx.layout
    ensures s.size == EffectiveSize(ctx, defaultAvatarGroupSize)
    ensures s.indicator == EffectiveIndicator(props, s.size)
    ensures s.components == DefaultComponents
    ensures s.root == RootProps(props, popoverOpen)
    ensures TriggerContent(s) == Null <==> ctx.layout == Some(Pie)
    ensures TriggerContent(s) == MoreGlyph <==> ctx.layout != Some(Pie) && s.indicator == Icon
    ensures ctx.layout != Some(Pie) && s.indicator == Count ==>
      TriggerContent(s) == Str(CountLabel(EffectiveCount(props, childCount)))
    ensures s.triggerButton ==
      TriggerButtonRequest(props, TriggerButtonChildren(ctx.layout, s.indicator, EffectiveCount(props, childCount)))
    ensures s.triggerButton.required && s.content.required && s.popoverSurface.required && s.tooltip.required
    ensures s.content == ContentRequest(props) && s.popoverSurface == PopoverSurfaceRequest(props)
    ensures s.tooltip == TooltipRequest(props)
  {
    var size := EffectiveSize(ctx, defaultAvatarGroupSize);
    var indicator := EffectiveIndicator(props, size);
    var count := EffectiveCount(props, childCount);
    var children := TriggerButtonChildren(ctx.layout, indicator, count);
    State(
      popoverOpen, ctx.layout, indicator, size, DefaultComponents,
      RootProps(props, popoverOpen),
      TriggerButtonRequest(props, children),
      ContentRequest(props),
      PopoverSurfaceRequest(props),
      TooltipRequest(props))
  }

  // ---------------------------------------------------------------------------
  // The popover change handler.

  /** An event that asks the popover to open or close (opaque). */
  datatype Event = Event(id: nat)

  datatype OpenChangeData = OpenChangeData(open: bool)

  /** One observable effect of the handler. */
  datatype Effect =
    | CallerOnOpenChange(callback: nat, event: Event, data: OpenChangeData)
    | SetPopoverOpen(open: bool)

  /** The effects of one popover change, in order: the caller's callback (if it
      is a function) with the same event and data, then the setter with `data.open`. */
  function HandlerEffects(onOpenChange: Value, e: Event, data: OpenChangeData): (effects: seq<Effect>)
    requires IsOptionalCallback(onOpenChange)
    ensures |effects| == (if onOpenChange.Fn? then 2 else 1)
    ensures effects[|effects| - 1] == SetPopoverOpen(data.open)
    ensures onOpenChange.Fn? ==> effects[0] == CallerOnOpenChange(onOpenChange.id, e, data)
  {
    (if onOpenChange.Fn? then [CallerOnOpenChange(onOpenChange.id, e, data)] else []) + [SetPopoverOpen(data.open)]
  }

  /** `handleOnPopoverChange`, closed over the caller's `onOpenChange`; `trace`
      records the calls it makes, in order. */
  class PopoverChangeHandler {
    const onOpenChange: Value
    var trace: seq<Effect>

    ghost predicate Valid()
    {
      IsOptionalCallback(onOpenChange)
    }

    constructor (props: Props)
      requires WellTyped(props)
      ensures Valid()
      ensures onOpenChange == Get(RestOfProps(props), "onOpenChange")
      ensures trace == []
    {
      onOpenChange := Get(RestOfProps(props), "onOpenChange");
      trace := [];
    }

    method HandleOnPopoverChange(e: Event, data: OpenChangeData)
      requires Valid()
      modifies this
      ensures Valid()
      ensures trace == old(trace) + HandlerEffects(onOpenChange, e, data)
    {
      if onOpenChange.Fn? {
        trace := trace + [CallerOnOpenChange(onOpenChange.id, e, data)];
      }
      trace := trace + [SetPopoverOpen(data.open)];
    }
  }

  // ---------------------------------------------------------------------------
  // Properties.

  /** Without an explicit indicator, a small avatar group shows the icon. */
  lemma SmallGroupShowsGlyph(defaultAvatarGroupSize: int, props: Props, childCount: nat, popoverOpen: bool)
    requires WellTyped(props) && Get(props, "indicator") == Undefined
    ensures var s := UseAvatarGroupPopover(GroupContext(Some(16), None), defaultAvatarGroupSize, props, childCount, popoverOpen);
      s.indicator == Icon && TriggerContent(s) == MoreGlyph
  {
  }

  /** With 150 people in a large group, the button reads "99+". */
  lemma LargeCountSaturates(defaultAvatarGroupSize: int, props: Props, popoverOpen: bool)
    requires WellTyped(props) && Get(props, "indicator") == Undefined && Get(props, "count") == Num(150)
    ensures var s := UseAvatarGroupPopover(GroupContext(Some(32), Some(Stack)), defaultAvatarGroupSize, props, 3, popoverOpen);
      s.indicator == Count && TriggerContent(s) == Str("99+")
  {
  }

  /** Count labels of shown counts tell the counts apart. */
  lemma CountLabelInjective(a: int, b: int)
    requires a <= MaxShownCount && b <= MaxShownCount
    ensures CountLabel(a) == CountLabel(b) ==> a == b
  {
  }

  /** Two popover changes record the caller and setter calls of each, in call order. */
  method TwoChanges(handler: PopoverChangeHandler, e1: Event, e2: Event)
    requires handler.Valid() && handler.trace == [] && handler.onOpenChange.Fn?
    modifies handler
    ensures handler.trace == [
      CallerOnOpenChange(handler.onOpenChange.id, e1, OpenChangeData(true)), SetPopoverOpen(true),
      CallerOnOpenChange(handler.onOpenChange.id, e2, OpenChangeData(false)), SetPopoverOpen(false)]
  {
    handler.HandleOnPopoverChange(e1, OpenChangeData(true));
    handler.HandleOnPopoverChange(e2, OpenChangeData(false));
  }
}
