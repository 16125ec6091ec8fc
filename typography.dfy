/** Typography design tokens: the font-size scale, weights and named text styles. */
module Typography {
  import opened Widgets
  import Orders

  const FONT_SIZE_XS: int := 12
  const FONT_SIZE_SM: int := 14
  const FONT_SIZE_BASE: int := 16
  const FONT_SIZE_LG: int := 18
  const FONT_SIZE_XL: int := 20
  const FONT_SIZE_2XL: int := 24
  const FONT_SIZE_3XL: int := 30
  const FONT_SIZE_4XL: int := 36
  const FONT_SIZE_5XL: int := 48

  // Line heights 1.25, 1.5 and 1.75, in hundredths.
  const LINE_HEIGHT_TIGHT: int := 125
  const LINE_HEIGHT_NORMAL: int := 150
  const LINE_HEIGHT_RELAXED: int := 175

  const FONT_WEIGHT_LIGHT: FontWeight := W300
  const FONT_WEIGHT_NORMAL: FontWeight := W400
  const FONT_WEIGHT_MEDIUM: FontWeight := W500
  const FONT_WEIGHT_SEMIBOLD: FontWeight := W600
  const FONT_WEIGHT_BOLD: FontWeight := W700

  /** One entry of class `Typography`: its "size", "weight" and "line_height". */
  datatype TextStyle = TextStyle(size: int, weight: FontWeight, lineHeight: int)

  const H1: TextStyle := TextStyle(FONT_SIZE_5XL, FONT_WEIGHT_BOLD, LINE_HEIGHT_TIGHT)
  const H2: TextStyle := TextStyle(FONT_SIZE_4XL, FONT_WEIGHT_BOLD, LINE_HEIGHT_TIGHT)
  const H3: TextStyle := TextStyle(FONT_SIZE_3XL, FONT_WEIGHT_SEMIBOLD, LINE_HEIGHT_TIGHT)
  const H4: TextStyle := TextStyle(FONT_SIZE_2XL, FONT_WEIGHT_SEMIBOLD, LINE_HEIGHT_NORMAL)
  const BODY_LARGE: TextStyle := TextStyle(FONT_SIZE_LG, FONT_WEIGHT_NORMAL, LINE_HEIGHT_RELAXED)
  const BODY: TextStyle := TextStyle(FONT_SIZE_BASE, FONT_WEIGHT_NORMAL, LINE_HEIGHT_NORMAL)
  const BODY_SMALL: TextStyle := TextStyle(FONT_SIZE_SM, FONT_WEIGHT_NORMAL, LINE_HEIGHT_NORMAL)
  const BUTTON: TextStyle := TextStyle(FONT_SIZE_SM, FONT_WEIGHT_MEDIUM, LINE_HEIGHT_TIGHT)
  const CAPTION: TextStyle := TextStyle(FONT_SIZE_XS, FONT_WEIGHT_NORMAL, LINE_HEIGHT_NORMAL)
  const LABEL: TextStyle := TextStyle(FONT_SIZE_SM, FONT_WEIGHT_MEDIUM, LINE_HEIGHT_NORMAL)

  /** The font-size scale, smallest first. */
  const FontSizes: seq<int> :=
    [FONT_SIZE_XS, FONT_SIZE_SM, FONT_SIZE_BASE, FONT_SIZE_LG, FONT_SIZE_XL,
     FONT_SIZE_2XL, FONT_SIZE_3XL, FONT_SIZE_4XL, FONT_SIZE_5XL]

  /** Every named text style of class `Typography`. */
  const Styles: seq<TextStyle> := [H1, H2, H3, H4, BODY_LARGE, BODY, BODY_SMALL, BUTTON, CAPTION, LABEL]

  /** The font sizes grow strictly from XS (12) to 5XL (48). */
  lemma FontSizesIncreasing()
    ensures Orders.StrictlyIncreasing(FontSizes)
    ensures FontSizes[0] == 12 && FontSizes[|FontSizes| - 1] == 48
  {
    Orders.StepsUpIsIncreasing(FontSizes);
  }

  /** The weights are ordered LIGHT < NORMAL < MEDIUM < SEMIBOLD < BOLD. */
  lemma WeightsIncreasing()
    ensures Orders.StrictlyIncreasing([FONT_WEIGHT_LIGHT.Value(), FONT_WEIGHT_NORMAL.Value(),
      FONT_WEIGHT_MEDIUM.Value(), FONT_WEIGHT_SEMIBOLD.Value(), FONT_WEIGHT_BOLD.Value()])
  {
    Orders.StepsUpIsIncreasing([FONT_WEIGHT_LIGHT.Value(), FONT_WEIGHT_NORMAL.Value(),
      FONT_WEIGHT_MEDIUM.Value(), FONT_WEIGHT_SEMIBOLD.Value(), FONT_WEIGHT_BOLD.Value()]);
  }

  /** Heading sizes shrink from H1 to H4; H1/H2 are bold, H3/H4 semibold. */
  lemma HeadingScale()
    ensures H1.size == 48 && H2.size == 36 && H3.size == 30 && H4.size == 24
    ensures Orders.StrictlyIncreasing([H4.size, H3.size, H2.size, H1.size])
    ensures H1.weight == H2.weight == FONT_WEIGHT_BOLD
    ensures H3.weight == H4.weight == FONT_WEIGHT_SEMIBOLD
  {
    Orders.StepsUpIsIncreasing([H4.size, H3.size, H2.size, H1.size]);
  }

  /** Body styles and the caption are set in the normal weight. */
  lemma BodyWeights()
    ensures BODY_LARGE.weight == BODY.weight == BODY_SMALL.weight == CAPTION.weight == FONT_WEIGHT_NORMAL
  {
  }

  /** BUTTON, LABEL and BODY_SMALL share size 14; BUTTON and LABEL share the medium weight. */
  lemma UiTextShared()
    ensures BUTTON.size == LABEL.size == BODY_SMALL.size == 14
    ensures BUTTON.weight == LABEL.weight == FONT_WEIGHT_MEDIUM
  {
  }

  /** CAPTION has the smallest size of every style and of the whole scale. */
  lemma CaptionSmallest()
    ensures CAPTION.size == 12
    ensures forall k :: 0 <= k < |Styles| ==> CAPTION.size <= Styles[k].size
    ensures forall k :: 0 <= k < |FontSizes| ==> CAPTION.size <= FontSizes[k]
  {
  }
}
