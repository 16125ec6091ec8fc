/**
 * The Button atom rebuilt on the design tokens: the same variant and size
 * keys and fallbacks as the plain Button, but every colour, spacing,
 * radius and text attribute comes from a token, and the icon and label
 * share the variant's foreground colour.
 */
module TokenButton {
  import opened Widgets
  import opened StyleKeys
  import Spacing
  import Typography
  import Borders

  /** One entry of the variant table. */
  datatype VariantStyle = VariantStyle(bgcolor: Color, color: Color, border: Option<Border>)

  /** One entry of the size table. */
  datatype SizeStyle = SizeStyle(height: int, padding: Padding, textSize: int)

  /**
   * The variant table. No entry uses its background token for its label,
   * and only "ghost" draws a border, WIDTH_THIN wide in its label colour.
   */
  function VariantStyles(v: ButtonVariant): (style: VariantStyle)
    ensures style.bgcolor != style.color
    ensures style.border.Some? <==> v == Ghost
    ensures style.border.Some? ==> style.border.value == Border(Borders.WIDTH_THIN, style.color)
  {
    match v
    case Primary => VariantStyle(Token(ColorToken.Primary), Token(TextInverse), None)
    case Secondary => VariantStyle(Token(SecondaryLight), Token(TextPrimary), None)
    case Danger => VariantStyle(Token(ColorToken.Danger), Token(TextInverse), None)
    case Ghost => VariantStyle(Token(TokenWhite), Token(ColorToken.Primary),
                               Some(Border(Borders.WIDTH_THIN, Token(ColorToken.Primary))))
  }

  /**
   * The size table. Both paddings lie on the 4-pixel spacing grid, the
   * horizontal one is the larger, and the text sizes come from the
   * typography scale.
   */
  function SizeStyles(s: Size): (style: SizeStyle)
    ensures 32 <= style.height <= 48 && 12 <= style.textSize <= 16
    ensures style.padding == Symmetric(style.padding.left, style.padding.top)
    ensures style.padding.left % Spacing.BASE_UNIT == 0 && style.padding.top % Spacing.BASE_UNIT == 0
    ensures 0 < style.padding.top < style.padding.left
    ensures style.textSize in Typography.FontSizes
  {
    match s
    case Small => SizeStyle(32, Symmetric(Spacing.SM, Spacing.XS), Typography.CAPTION.size)
    case Medium => SizeStyle(40, Symmetric(Spacing.MD, Spacing.SM), Typography.BUTTON.size)
    case Large => SizeStyle(48, Symmetric(Spacing.LG, Spacing.MD), Typography.BODY.size)
  }

  /** The variant entry named by `variant`, or the "primary" entry when it names none. */
  function ResolveVariant(variant: string): (style: VariantStyle)
    ensures forall v: ButtonVariant :: v.Key() == variant ==> style == VariantStyles(v)
    ensures (forall v: ButtonVariant :: v.Key() != variant) ==> style == VariantStyles(ButtonVariant.Primary)
  {
    match ParseButtonVariant(variant)
    case Some(v) => VariantStyles(v)
    case None => VariantStyles(ButtonVariant.Primary)
  }

  /** The size entry named by `size`, or the "medium" entry when it names none. */
  function ResolveSize(size: string): (style: SizeStyle)
    ensures forall s: Size :: s.Key() == size ==> style == SizeStyles(s)
    ensures (forall s: Size :: s.Key() != size) ==> style == SizeStyles(Medium)
  {
    match ParseSize(size)
    case Some(s) => SizeStyles(s)
    case None => SizeStyles(Medium)
  }

  /** The row content: the icon (size 16) when one is given, then the label, both in the variant's colour. */
  function RowContent(text: string, style: VariantStyle, sizeStyle: SizeStyle, icon: Option<IconName>): (cs: seq<Node>)
    ensures |cs| == (if icon.Some? then 2 else 1)
    ensures cs[|cs| - 1] == Text(text, Some(Typography.BUTTON.weight), Some(sizeStyle.textSize), Some(style.color))
    ensures icon.Some? ==> cs[0] == Icon(icon.value, Some(16), Some(style.color))
  {
    (if icon.Some? then [Icon(icon.value, Some(16), Some(style.color))] else [])
    + [Text(text, Some(Typography.BUTTON.weight), Some(sizeStyle.textSize), Some(style.color))]
  }

  /** The token-based Button atom. */
  function Button(text: string := "Button", variant: string := "primary", size: string := "medium",
                  onClick: Option<Callback> := None, icon: Option<IconName> := None): (n: Node)
    ensures n.Container? && n.content.Row?
    ensures n.content.controls == RowContent(text, ResolveVariant(variant), ResolveSize(size), icon)
    ensures n.content.mainAxis == Some(MainCenter) && n.content.spacing == Spacing.SM
    ensures n.bgcolor == Some(ResolveVariant(variant).bgcolor)
    ensures n.border == ResolveVariant(variant).border
    ensures n.height == Some(ResolveSize(size).height)
    ensures n.padding == Some(ResolveSize(size).padding)
    ensures n.borderRadius == Some(Borders.RADIUS_BUTTON) && n.onClick == onClick && n.ink
  {
    var style := ResolveVariant(variant);
    var sizeStyle := ResolveSize(size);
    Box(Row(RowContent(text, style, sizeStyle, icon), Some(MainCenter), Spacing.SM)).(
      bgcolor := Some(style.bgcolor),
      border := style.border,
      borderRadius := Some(Borders.RADIUS_BUTTON),
      padding := Some(sizeStyle.padding),
      height := Some(sizeStyle.height),
      onClick := onClick,
      ink := true)
  }

  /** A variant that names no entry styles the button as "primary": TEXT_INVERSE on a PRIMARY background, no border. */
  lemma UnknownVariantIsPrimary(text: string, variant: string, size: string,
                                onClick: Option<Callback>, icon: Option<IconName>)
    requires forall v: ButtonVariant :: v.Key() != variant
    ensures Button(text, variant, size, onClick, icon) == Button(text, "primary", size, onClick, icon)
    ensures ResolveVariant(variant) == VariantStyle(Token(ColorToken.Primary), Token(TextInverse), None)
  {
  }

  /** A size that names no entry sizes the button as "medium": height 40, padding MD by SM, text 14. */
  lemma UnknownSizeIsMedium(text: string, variant: string, size: string,
                            onClick: Option<Callback>, icon: Option<IconName>)
    requires forall s: Size :: s.Key() != size
    ensures Button(text, variant, size, onClick, icon) == Button(text, variant, "medium", onClick, icon)
    ensures ResolveSize(size) == SizeStyle(40, Symmetric(16, 8), 14)
  {
  }

  /** Height, padding and text size all grow from small to medium to large. */
  lemma SizesGrow()
    ensures var s, m, l := ResolveSize("small"), ResolveSize("medium"), ResolveSize("large");
      && s.height == 32 && m.height == 40 && l.height == 48
      && s.padding == Symmetric(8, 4) && m.padding == Symmetric(16, 8) && l.padding == Symmetric(24, 16)
      && s.textSize == 12 && m.textSize == 14 && l.textSize == 16
      && s.padding.left < m.padding.left < l.padding.left
      && s.padding.top < m.padding.top < l.padding.top
      && s.textSize < m.textSize < l.textSize
  {
  }

  /** Any icon is drawn in the label's colour, which is the variant's foreground colour. */
  lemma IconSharesLabelColor(text: string, variant: string, size: string,
                             onClick: Option<Callback>, icon: Option<IconName>)
    requires icon.Some?
    ensures var cs := Button(text, variant, size, onClick, icon).content.controls;
      |cs| == 2 && cs[0].Icon? && cs[1].Text? && cs[0].color == cs[1].color == Some(ResolveVariant(variant).color)
  {
  }

  /** Only "ghost" draws a border, WIDTH_THIN wide in the PRIMARY colour. */
  lemma OnlyGhostHasBorder(variant: string)
    ensures ResolveVariant(variant).border.Some? <==> variant == "ghost"
    ensures variant == "ghost" ==>
      ResolveVariant(variant).border == Some(Border(Borders.WIDTH_THIN, Token(ColorToken.Primary)))
      && Borders.WIDTH_THIN == 1
    ensures ResolveVariant("ghost") == VariantStyle(Token(TokenWhite), Token(ColorToken.Primary),
                                                    Some(Border(Borders.WIDTH_THIN, Token(ColorToken.Primary))))
  {
  }

  /** The "secondary" and "danger" entries, looked up by their keys. */
  lemma SecondaryAndDanger()
    ensures ResolveVariant("secondary") == VariantStyle(Token(SecondaryLight), Token(TextPrimary), None)
    ensures ResolveVariant("danger") == VariantStyle(Token(ColorToken.Danger), Token(TextInverse), None)
  {
  }

  /** The radius and the label weight are the same for every variant and size. */
  lemma ConstantRadiusAndWeight(text: string, variant: string, size: string,
                                onClick: Option<Callback>, icon: Option<IconName>)
    ensures var n := Button(text, variant, size, onClick, icon);
      var cs := n.content.controls;
      n.borderRadius == Some(6) && cs[|cs| - 1].weight == Some(Typography.BUTTON.weight) == Some(W500)
  {
  }
}
