/** The `Button` primitive: it renders an anchor when given a link and a
    button otherwise, resolves its variant and size, disables itself while
    loading, and places a spinner or an icon around its children. */
module Button {
  import opened Options
  import opened Dom

  datatype Variant = Primary | Secondary | Outline | Ghost | Danger | Gaming
  datatype Size = Sm | Md | Lg | Xl | IconSize
  datatype IconPosition = Left | Right

  /** The props the component reads. `disabled` and `icon` absent or falsy
      are `false` and `None`; `href` is kept as given, since an empty link is
      falsy and selects button mode. */
  datatype ButtonProps = ButtonProps(
    variant: Option<Variant>,
    size: Option<Size>,
    loading: bool,
    icon: Option<Node>,
    iconPosition: IconPosition,
    href: Option<string>,
    external: bool,
    glow: bool,
    disabled: bool,
    children: Node)

  /** A button given only its children: the destructuring defaults. */
  function WithDefaults(children: Node): (p: ButtonProps)
    ensures !p.loading && p.iconPosition == Left && !p.external && !p.glow && !p.disabled
    ensures p.variant == None && p.size == None && p.icon == None && p.href == None
  {
    ButtonProps(None, None, false, None, Left, None, false, false, false, children)
  }

  /** `defaultVariants` of the class table. */
  function ResolvedVariant(v: Option<Variant>): (r: Variant)
    ensures v.None? ==> r == Primary
    ensures v.Some? ==> r == v.value
  {
    if v.Some? then v.value else Primary
  }

  function ResolvedSize(s: Option<Size>): (r: Size)
    ensures s.None? ==> r == Md
    ensures s.Some? ==> r == s.value
  {
    if s.Some? then s.value else Md
  }

  /** What goes inside the element, left to right. */
  datatype Part = Spinner | Icon(icon: Node) | Children(children: Node)

  function CountIcons(parts: seq<Part>): nat {
    if parts == [] then 0 else (if parts[0].Icon? then 1 else 0) + CountIcons(parts[1..])
  }

  lemma {:induction false} CountIconsAppend(a: seq<Part>, b: seq<Part>)
    ensures CountIcons(a + b) == CountIcons(a) + CountIcons(b)
  {
    if a == [] {
      assert a + b == b;
    } else {
      assert (a + b)[1..] == a[1..] + b;
      CountIconsAppend(a[1..], b);
    }
  }

  lemma CountIconsSingle(x: Part)
    ensures CountIcons([x]) == if x.Icon? then 1 else 0
  {
    assert [x][1..] == [];
  }

  /** `buttonContent`: the spinner first while loading, and then the icon is
      left out on both sides; otherwise the icon, when there is one, appears
      once, on the side `iconPosition` names. */
  function Content(p: ButtonProps): (parts: seq<Part>)
    ensures Spinner in parts <==> p.loading
    ensures Children(p.children) in parts
    ensures !p.loading && p.icon.Some? && p.iconPosition == Left ==> parts == [Icon(p.icon.value), Children(p.children)]
    ensures !p.loading && p.icon.Some? && p.iconPosition == Right ==> parts == [Children(p.children), Icon(p.icon.value)]
  {
    var showIcon := !p.loading && p.icon.Some?;
    var spinner := if p.loading then [Spinner] else [];
    var left := if showIcon && p.iconPosition == Left then [Icon(p.icon.value)] else [];
    var right := if showIcon && p.iconPosition == Right then [Icon(p.icon.value)] else [];
    spinner + left + [Children(p.children)] + right
  }

  /** The icon is never drawn twice: once when not loading and given, never
      otherwise. */
  lemma ContentIconCount(p: ButtonProps)
    ensures CountIcons(Content(p)) == if !p.loading && p.icon.Some? then 1 else 0
  {
    var showIcon := !p.loading && p.icon.Some?;
    var spinner := if p.loading then [Spinner] else [];
    var left := if showIcon && p.iconPosition == Left then [Icon(p.icon.value)] else [];
    var right := if showIcon && p.iconPosition == Right then [Icon(p.icon.value)] else [];
    assert Content(p) == spinner + left + [Children(p.children)] + right;
    CountIconsSingle(Spinner);
    CountIconsSingle(Children(p.children));
    if p.icon.Some? {
      CountIconsSingle(Icon(p.icon.value));
    }
    assert CountIcons([]) == 0;
    CountIconsAppend(spinner, left);
    CountIconsAppend(spinner + left, [Children(p.children)]);
    CountIconsAppend(spinner + left + [Children(p.children)], right);
  }

  /** The class list: the resolved variant and size, `animate-glow-pulse`
      when `glow`, and `cursor-pointer` in anchor mode. */
  datatype Style = Style(variant: Variant, size: Size, glowPulse: bool, cursorPointer: bool)

  datatype Element =
    | Anchor(href: string, target: Option<string>, rel: Option<string>, style: Style,
             hoverAnimation: bool, tapAnimation: bool, content: seq<Part>)
    | ButtonElement(disabled: bool, style: Style, hoverAnimation: bool, tapAnimation: bool, content: seq<Part>)

  function Render(p: ButtonProps): (e: Element)
    ensures e.Anchor? <==> p.href.Some? && p.href.value != ""
    ensures e.Anchor? ==> e.href == p.href.value
    ensures e.Anchor? ==> (e.target == Some("_blank") <==> p.external) && (e.target == None <==> !p.external)
    ensures e.Anchor? ==> (e.rel == Some("noopener noreferrer") <==> p.external) && (e.rel == None <==> !p.external)
    ensures e.Anchor? ==> e.hoverAnimation && e.tapAnimation
    ensures e.ButtonElement? ==> (e.disabled <==> p.disabled || p.loading)
    ensures e.ButtonElement? ==> (e.hoverAnimation <==> !p.disabled && !p.loading) && e.tapAnimation == e.hoverAnimation
    ensures e.style.variant == ResolvedVariant(p.variant) && e.style.size == ResolvedSize(p.size)
    ensures e.style.glowPulse == p.glow && e.style.cursorPointer == e.Anchor?
    ensures e.content == Content(p)
  {
    var style := Style(ResolvedVariant(p.variant), ResolvedSize(p.size), p.glow, false);
    if p.href.Some? && p.href.value != "" then
      Anchor(p.href.value,
        if p.external then Some("_blank") else None,
        if p.external then Some("noopener noreferrer") else None,
        style.(cursorPointer := true), true, true, Content(p))
    else
      var active := !p.disabled && !p.loading;
      ButtonElement(p.disabled || p.loading, style, active, active, Content(p))
  }

  /** In anchor mode `disabled` and `loading` do not make the link inert: the
      element and its animations are those of an enabled link. */
  lemma AnchorIgnoresDisabled(p: ButtonProps)
    requires p.href.Some? && p.href.value != ""
    ensures Render(p.(disabled := true)).Anchor?
    ensures Render(p.(disabled := true)) == Render(p.(disabled := false))
  {
  }
}
