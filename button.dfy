/**
 * The plain atomic Button: a clickable container around a centred row of
 * an optional icon and a label, styled by a variant and a size that are
 * looked up in fixed tables with a fallback to "primary" and "medium".
 */
module ButtonAtom {
  import opened Widgets
  import opened StyleKeys

  /** One entry of the variant table. */
  datatype VariantStyle = VariantStyle(bgcolor: Color, color: Color, border: Option<Border>)

  /** One entry of the size table. */
  datatype SizeStyle = SizeStyle(height: int, padding: Padding)

  /**
   * The variant table. Every entry's `color` differs from its background, and
   * only "ghost" draws a border, in that `color`. The button never applies
   * `color` to its label or icon.
   */
  function VariantStyles(v: ButtonVariant): (style: VariantStyle)
    ensures style.bgcolor != style.color
    ensures style.border.Some? <==> v == Ghost
    ensures style.border.Some? ==> style.border.value == Border(1, style.color)
  {
    match v
    case Primary => VariantStyle(Flet(Blue), Flet(White), None)
    case Secondary => VariantStyle(Flet(Grey300), Flet(Black), None)
    case Danger => VariantStyle(Flet(Red), Flet(White), None)
    case Ghost => VariantStyle(Flet(Transparent), Flet(Blue), Some(Border(1, Flet(Blue))))
  }

  /** The size table: heights from 32 to 48, and horizontal padding only. */
  function SizeStyles(s: Size): (style: SizeStyle)
    ensures 32 <= style.height <= 48
    ensures style.padding.top == style.padding.bottom == 0
    ensures 0 < style.padding.left == style.padding.right < style.height / 2
  {
    match s
    case Small => SizeStyle(32, Symmetric(12))
    case Medium => SizeStyle(40, Symmetric(16))
    case Large => SizeStyle(48, Symmetric(20))
  }

  /** The variant entry named by `variant`, or the "primary" entry when it names none. */
  function ResolveVariant(variant: string): (style: VariantStyle)
    ensures forall v: ButtonVariant :: v.Key() == variant ==> style == VariantStyles(v)
    ensures (forall v: ButtonVariant :: v.Key() != variant) ==> style == VariantStyles(ButtonVariant.Primary)
  {
    match ParseButtonVariant(variant)
    case Some(v) => VariantStyles(v)
    case None => VariantStyles(ButtonVariant.Primary)
  }

  /** The size entry named by `size`, or the "medium" entry when it names none. */
  function ResolveSize(size: string): (style: SizeStyle)
    ensures forall s: Size :: s.Key() == size ==> style == SizeStyles(s)
    ensures (forall s: Size :: s.Key() != size) ==> style == SizeStyles(Medium)
  {
    match ParseSize(size)
    case Some(s) => SizeStyles(s)
    case None => SizeStyles(Medium)
  }

  /** The label: the text in weight W_500, with Flet's default size and colour. */
  function Label(text: string): (n: Node)
    ensures n.Text? && n.value == text && n.weight == Some(W500)
    ensures n.color.None? && n.size.None?
  {
    Text(text, Some(W500), None, None)
  }

  /** The row content: the icon (size 16) when one is given, then the label. */
  function RowContent(text: string, icon: Option<IconName>): (cs: seq<Node>)
    ensures |cs| == (if icon.Some? then 2 else 1)
    ensures cs[|cs| - 1] == Label(text)
    ensures icon.Some? ==> cs[0] == Icon(icon.value, Some(16), None)
  {
    (if icon.Some? then [Icon(icon.value, Some(16), None)] else []) + [Label(text)]
  }

  /** The Button atom. */
  function Button(text: string := "Button", variant: string := "primary", size: string := "medium",
                  onClick: Option<Callback> := None, icon: Option<IconName> := None): (n: Node)
    ensures n.Container? && n.content.Row?
    ensures n.content.controls == RowContent(text, icon)
    ensures n.content.mainAxis == Some(MainCenter) && n.content.spacing == 8
    ensures n.bgcolor == Some(ResolveVariant(variant).bgcolor)
    ensures n.border == ResolveVariant(variant).border
    ensures n.height == Some(ResolveSize(size).height)
    ensures n.padding == Some(ResolveSize(size).padding)
    ensures n.borderRadius == Some(6) && n.onClick == onClick && n.ink
  {
    var style := ResolveVariant(variant);
    var sizeStyle := ResolveSize(size);
    Box(Row(RowContent(text, icon), Some(MainCenter), 8)).(
      bgcolor := Some(style.bgcolor),
      border := style.border,
      borderRadius := Some(6),
      padding := Some(sizeStyle.padding),
      height := Some(sizeStyle.height),
      onClick := onClick,
      ink := true)
  }

  /** The label is the one text of the row, and it comes last; an icon, if any, comes first. */
  lemma ButtonRowContent(text: string, variant: string, size: string,
                         onClick: Option<Callback>, icon: Option<IconName>)
    ensures var cs := Button(text, variant, size, onClick, icon).content.controls;
      && |cs| == (if icon.Some? then 2 else 1)
      && cs[|cs| - 1] == Text(text, Some(W500), None, None)
      && (forall k :: 0 <= k < |cs| - 1 ==> cs[k].Icon? && cs[k].name == icon.value)
  {
  }

  /**
   * A variant that names no entry styles the button exactly as "primary" does:
   * blue background, no border. The record's `color`, which this button never
   * applies, is WHITE.
   */
  lemma UnknownVariantIsPrimary(text: string, variant: string, size: string,
                                onClick: Option<Callback>, icon: Option<IconName>)
    requires forall v: ButtonVariant :: v.Key() != variant
    ensures Button(text, variant, size, onClick, icon) == Button(text, "primary", size, onClick, icon)
    ensures ResolveVariant(variant) == VariantStyle(Flet(Blue), Flet(White), None)
  {
  }

  /** A size that names no entry sizes the button exactly as "medium" does: height 40, padding 16 sideways. */
  lemma UnknownSizeIsMedium(text: string, variant: string, size: string,
                            onClick: Option<Callback>, icon: Option<IconName>)
    requires forall s: Size :: s.Key() != size
    ensures Button(text, variant, size, onClick, icon) == Button(text, variant, "medium", onClick, icon)
    ensures ResolveSize(size) == SizeStyle(40, Symmetric(16, 0))
  {
  }

  /** The colours and border depend on the variant alone; the height and padding on the size alone. */
  lemma FallbacksIndependent(text: string, variant1: string, variant2: string, size1: string, size2: string,
                             onClick: Option<Callback>, icon: Option<IconName>)
    ensures var a, b := Button(text, variant1, size1, onClick, icon), Button(text, variant1, size2, onClick, icon);
      a.bgcolor == b.bgcolor && a.border == b.border
    ensures var a, b := Button(text, variant1, size1, onClick, icon), Button(text, variant2, size1, onClick, icon);
      a.height == b.height && a.padding == b.padding
  {
  }

  /** Each size key finds its own height: 32, 40 and 48, strictly increasing. */
  lemma SizeHeights()
    ensures ResolveSize("small").height == 32
    ensures ResolveSize("medium").height == 40
    ensures ResolveSize("large").height == 48
    ensures ResolveSize("small").padding.left < ResolveSize("medium").padding.left < ResolveSize("large").padding.left
  {
  }

  /** The "secondary" and "danger" entries, looked up by their keys. */
  lemma SecondaryAndDanger()
    ensures ResolveVariant("secondary") == VariantStyle(Flet(Grey300), Flet(Black), None)
    ensures ResolveVariant("danger") == VariantStyle(Flet(Red), Flet(White), None)
  {
  }

  /** Only "ghost" draws a border, 1 wide and blue. */
  lemma OnlyGhostHasBorder(variant: string)
    ensures ResolveVariant(variant).border.Some? <==> variant == "ghost"
    ensures variant == "ghost" ==> ResolveVariant(variant).border == Some(Border(1, Flet(Blue)))
    ensures ResolveVariant("ghost") == VariantStyle(Flet(Transparent), Flet(Blue), Some(Border(1, Flet(Blue))))
  {
  }
}
