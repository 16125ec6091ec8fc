/**
 * The atomic Input: a text field styled by a variant and a size that are
 * looked up in fixed tables with a fallback to "default" and "medium".
 * Its change and submit handlers are handed to the field untouched.
 */
module InputAtom {
  import opened Widgets
  import opened StyleKeys

  /** One entry of the variant table. */
  datatype VariantStyle = VariantStyle(border: InputBorder, bgcolor: Color)

  /** One entry of the size table. */
  datatype SizeStyle = SizeStyle(height: int, textSize: int)

  /**
   * The variant table. Every field is set off by exactly one of a border
   * line or a background fill, and only "outlined" draws a full outline.
   */
  function VariantStyles(v: InputVariant): (style: VariantStyle)
    ensures style.border == NoBorder <==> style.bgcolor != Flet(Transparent)
    ensures style.border == Outline <==> v == Outlined
  {
    match v
    case Default => VariantStyle(Underline, Flet(Transparent))
    case Outlined => VariantStyle(Outline, Flet(Transparent))
    case Filled => VariantStyle(NoBorder, Flet(Grey100))
  }

  /** The size table: heights from 32 to 48, each more than twice its text size. */
  function SizeStyles(s: Size): (style: SizeStyle)
    ensures 32 <= style.height <= 48 && 12 <= style.textSize <= 16
    ensures 2 * style.textSize < style.height
  {
    match s
    case Small => SizeStyle(32, 12)
    case Medium => SizeStyle(40, 14)
    case Large => SizeStyle(48, 16)
  }

  /** The variant entry named by `variant`, or the "default" entry when it names none. */
  function ResolveVariant(variant: string): (style: VariantStyle)
    ensures forall v: InputVariant :: v.Key() == variant ==> style == VariantStyles(v)
    ensures (forall v: InputVariant :: v.Key() != variant) ==> style == VariantStyles(Default)
  {
    match ParseInputVariant(variant)
    case Some(v) => VariantStyles(v)
    case None => VariantStyles(Default)
  }

  /** The size entry named by `size`, or the "medium" entry when it names none. */
  function ResolveSize(size: string): (style: SizeStyle)
    ensures forall s: Size :: s.Key() == size ==> style == SizeStyles(s)
    ensures (forall s: Size :: s.Key() != size) ==> style == SizeStyles(Medium)
  {
    match ParseSize(size)
    case Some(s) => SizeStyles(s)
    case None => SizeStyles(Medium)
  }

  /** The Input atom. */
  function Input(placeholder: string := "Enter text...", variant: string := "default", size: string := "medium",
                 onChange: Option<Callback> := None, onSubmit: Option<Callback> := None): (n: Node)
    ensures n.TextField? && n.hintText == placeholder
    ensures n.inputBorder == ResolveVariant(variant).border && n.bgcolor == Some(ResolveVariant(variant).bgcolor)
    ensures n.height == Some(ResolveSize(size).height) && n.textSize == ResolveSize(size).textSize
    ensures n.onChange == onChange && n.onSubmit == onSubmit && n.borderRadius == Some(6)
  {
    var style := ResolveVariant(variant);
    var sizeStyle := ResolveSize(size);
    TextField(placeholder, style.border, Some(style.bgcolor), Some(sizeStyle.height), sizeStyle.textSize,
              onChange, onSubmit, Some(6))
  }

  /** A variant that names no entry styles the field as "default": underlined on a transparent background. */
  lemma UnknownVariantIsDefault(placeholder: string, variant: string, size: string,
                                onChange: Option<Callback>, onSubmit: Option<Callback>)
    requires forall v: InputVariant :: v.Key() != variant
    ensures Input(placeholder, variant, size, onChange, onSubmit) == Input(placeholder, "default", size, onChange, onSubmit)
    ensures ResolveVariant(variant) == VariantStyle(Underline, Flet(Transparent))
  {
  }

  /** A size that names no entry sizes the field as "medium": height 40, text 14. */
  lemma UnknownSizeIsMedium(placeholder: string, variant: string, size: string,
                            onChange: Option<Callback>, onSubmit: Option<Callback>)
    requires forall s: Size :: s.Key() != size
    ensures Input(placeholder, variant, size, onChange, onSubmit) == Input(placeholder, variant, "medium", onChange, onSubmit)
    ensures ResolveSize(size) == SizeStyle(40, 14)
  {
  }

  /** Height and text size both grow from small to medium to large. */
  lemma SizesGrow()
    ensures var s, m, l := ResolveSize("small"), ResolveSize("medium"), ResolveSize("large");
      && s.height == 32 && m.height == 40 && l.height == 48
      && s.textSize == 12 && m.textSize == 14 && l.textSize == 16
      && s.height < m.height < l.height && s.textSize < m.textSize < l.textSize
  {
  }

  /** Only "filled" has a background (GREY_100), and it draws no border. */
  lemma OnlyFilledHasBackground(variant: string)
    ensures ResolveVariant(variant).bgcolor != Flet(Transparent) <==> variant == "filled"
    ensures variant == "filled" ==> ResolveVariant(variant) == VariantStyle(NoBorder, Flet(Grey100))
  {
  }
}
