/**
 * The `Icon` component: the props it takes, the ambient icon context it
 * reads, the element it builds on a hit, the error it logs on a miss, and
 * the default-prop step the framework applies before calling it.
 */
module Icon {
  import opened Wrappers
  import opened IconRegistry

  /** The pixel sizes the `size` prop accepts. */
  const AllowedSizes: set<int> := {16, 24, 32, 48, 64, 96}

  type IconSize = s: int | s in AllowedSizes witness 24

  /** The size `defaultProps` gives an `Icon` rendered without one. */
  const DefaultSize: IconSize := 24

  /** The props of `Icon`. */
  datatype IconProps = IconProps(name: string, size: Option<IconSize>, color: Option<string>)

  /** The ambient icon context; its `size` is a CSS length string. */
  datatype IconContextValue = IconContextValue(
    color: Option<string>, size: Option<string>, className: Option<string>)

  /** A resolved size: the prop's pixel size, or the context's CSS length. */
  datatype Dimension = Pixels(px: IconSize) | ContextSize(css: string)

  /** The props handed to the resolved renderer. */
  datatype IconElement = IconElement(
    component: Renderer,
    alt: string,
    ariaLabel: string,
    className: Option<string>,
    color: Option<string>,
    height: Option<Dimension>,
    role: string,
    size: Option<Dimension>,
    width: Option<Dimension>)

  /** What one call of the component yields: an element or nothing, and the error log it wrote. */
  datatype Rendered = Rendered(element: Option<IconElement>, log: seq<string>)

  /** `size ?? defaultSize`. */
  function SizeOrContext(size: Option<IconSize>, contextSize: Option<string>): Option<Dimension>
  {
    if size.Some? then Some(Pixels(size.value))
    else if contextSize.Some? then Some(ContextSize(contextSize.value))
    else None
  }

  /** The error message for an unsupported name. */
  function NotSupported(name: string): string
  {
    "icon name " + name + " not supported"
  }

  /** The `n` characters of `text` starting at `i`. */
  function Window(text: string, i: nat, n: nat): string
    requires i + n <= |text|
  {
    text[i..i + n]
  }

  /** `name` occurs as a contiguous part of `text`. */
  ghost predicate Mentions(text: string, name: string)
  {
    exists i: nat :: i + |name| <= |text| && Window(text, i, |name|) == name
  }

  lemma MessageNamesIcon(name: string)
    ensures Mentions(NotSupported(name), name)
  {
    var prefix := "icon name ";
    var msg := NotSupported(name);
    assert msg == prefix + name + " not supported";
    assert Window(msg, |prefix|, |name|) == name;
  }

  /**
   * The part of the component after the lookup: a missing renderer logs one
   * error naming the icon and yields nothing; a found one yields an element
   * with that renderer, both labels set to the name, role `img`, the
   * context's class, the color and one size shared by height, size and width,
   * each taken from the props when set and from the context otherwise.
   */
  function Describe(props: IconProps, ctx: IconContextValue, found: Option<Renderer>): (r: Rendered)
    ensures r.element.None? <==> found.None?
    ensures found.None? ==> |r.log| == 1 && Mentions(r.log[0], props.name)
    ensures found.Some? ==> r.log == []
    ensures r.element.Some? ==>
      var e := r.element.value;
      && e.component == found.value
      && e.alt == props.name && e.ariaLabel == props.name
      && e.role == "img"
      && e.className == ctx.className
      && e.color == (if props.color.Some? then props.color else ctx.color)
      && e.height == e.size && e.width == e.size
      && (props.size.Some? ==> e.size == Some(Pixels(props.size.value)))
      && (props.size.None? && ctx.size.Some? ==> e.size == Some(ContextSize(ctx.size.value)))
      && (props.size.None? && ctx.size.None? ==> e.size.None?)
  {
    match found
    case None =>
      MessageNamesIcon(props.name);
      Rendered(None, [NotSupported(props.name)])
    case Some(component) =>
      var size := SizeOrContext(props.size, ctx.size);
      Rendered(Some(IconElement(
        component := component,
        alt := props.name,
        ariaLabel := props.name,
        className := ctx.className,
        color := Coalesce(props.color, ctx.color),
        height := size,
        role := "img",
        size := size,
        width := size)), [])
  }

  /**
   * The component as called with the props it receives (the default-prop
   * step not applied). A brand name always renders its brand asset; any other
   * name renders the merged packs' renderer; a name in no table logs one
   * error and renders nothing.
   */
  function IconBody(props: IconProps, ctx: IconContextValue, p: Packs): (r: Rendered)
    ensures props.name in CustomIcons ==>
      r.element.Some? && r.element.value.component == CustomIcons[props.name] && r.log == []
    ensures props.name !in CustomIcons && props.name in MergePacks(p) ==>
      r.element.Some? && r.element.value.component == MergePacks(p)[props.name] && r.log == []
    ensures r.element.None? <==>
      props.name !in CustomIcons && props.name !in p.feather && props.name !in p.phosphor &&
      props.name !in p.ant
    ensures r.element.None? ==> |r.log| == 1 && Mentions(r.log[0], props.name)
  {
    Describe(props, ctx, Lookup(props.name, p))
  }

  /** `Icon.defaultProps`: a missing size becomes 24; nothing else is defaulted. */
  function ApplyDefaultProps(props: IconProps): (r: IconProps)
    ensures r.name == props.name && r.color == props.color
    ensures r.size.Some?
    ensures props.size.Some? ==> r.size == props.size
    ensures props.size.None? ==> r.size == Some(24)
  {
    if props.size.None? then props.(size := Some(DefaultSize)) else props
  }

  /**
   * The corrected component rendered normally: the default-prop step, then
   * `IconBody`, whose lookup uses own-key membership.
   * The context size is then never used: the size is the prop's, or 24.
   * There is no such default for color: with neither a prop nor a context
   * color the element's color stays unset.
   */
  function Render(props: IconProps, ctx: IconContextValue, p: Packs): (r: Rendered)
    ensures r.element.Some? ==>
      var e := r.element.value;
      && e.size == Some(Pixels(if props.size.Some? then props.size.value else 24))
      && e.height == e.size && e.width == e.size
      && e.color == (if props.color.Some? then props.color else ctx.color)
    ensures r.element.Some? && props.color.None? && ctx.color.None? ==> r.element.value.color.None?
    ensures r.element.None? <==>
      props.name !in CustomIcons && props.name !in p.feather && props.name !in p.phosphor &&
      props.name !in p.ant
    ensures r.element.None? ==> |r.log| == 1 && Mentions(r.log[0], props.name)
    ensures r.element.Some? ==>
      var e := r.element.value;
      && r.log == []
      && e.component == Lookup(props.name, p).value
      && e.alt == props.name && e.ariaLabel == props.name
      && e.role == "img"
      && e.className == ctx.className
  {
    IconBody(ApplyDefaultProps(props), ctx, p)
  }

  /** A brand name beats every pack that defines the same name. */
  lemma CustomNameWinsOverPacks(props: IconProps, ctx: IconContextValue, p: Packs)
    requires props.name in CustomIcons
    requires props.name in p.feather || props.name in p.phosphor || props.name in p.ant
    ensures Render(props, ctx, p).element.Some?
    ensures Render(props, ctx, p).element.value.component == CustomIcons[props.name]
  {
  }

  /** The component as written, whose lookup sees inherited `Object.prototype` members. */
  function IconBodyAsWritten(props: IconProps, ctx: IconContextValue, p: Packs): (r: Rendered)
    ensures props.name !in ObjectPrototypeMembers ==> r == IconBody(props, ctx, p)
    ensures props.name in ObjectPrototypeMembers && props.name !in CustomIcons ==>
      r.element.Some? && r.element.value.component == InheritedMember(props.name) && r.log == []
  {
    Describe(props, ctx, LookupAsWritten(props.name, p))
  }

  /**
   * `<Icon .../>` rendered normally, lookup as written: the default-prop
   * step, then `IconBodyAsWritten`. Here too the context size is never used,
   * and color has no default. It equals `Render` for every name that is not
   * an `Object.prototype` member.
   */
  function RenderAsWritten(props: IconProps, ctx: IconContextValue, p: Packs): (r: Rendered)
    ensures r.element.Some? ==>
      var e := r.element.value;
      && e.size == Some(Pixels(if props.size.Some? then props.size.value else 24))
      && e.height == e.size && e.width == e.size
      && e.color == (if props.color.Some? then props.color else ctx.color)
    ensures r.element.Some? && props.color.None? && ctx.color.None? ==> r.element.value.color.None?
    ensures props.name !in ObjectPrototypeMembers ==> r == Render(props, ctx, p)
    ensures props.name in ObjectPrototypeMembers && props.name !in CustomIcons ==>
      r.element.Some? && r.element.value.component == InheritedMember(props.name) && r.log == []
  {
    IconBodyAsWritten(ApplyDefaultProps(props), ctx, p)
  }

  /**
   * A name such as "toString", defined by no table, renders the inherited
   * builtin with no log entry, where the own-key lookup logs the miss and
   * renders nothing.
   */
  lemma PrototypeNameSkipsMissPath(ctx: IconContextValue, p: Packs)
    requires "toString" !in p.feather && "toString" !in p.phosphor && "toString" !in p.ant
    ensures var r := IconBodyAsWritten(IconProps("toString", None, None), ctx, p);
      r.element.Some? && r.element.value.component == InheritedMember("toString") && r.log == []
    ensures IconBody(IconProps("toString", None, None), ctx, p) ==
      Rendered(None, [NotSupported("toString")])
  {
    assert "toString" in ObjectPrototypeMembers;
    assert "toString" !in CustomIcons;
  }
}
