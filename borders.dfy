/** Border design tokens: corner radii, border widths and their semantic aliases. */
module Borders {
  import Orders

  const RADIUS_NONE: int := 0
  const RADIUS_SM: int := 2
  const RADIUS_BASE: int := 4
  const RADIUS_MD: int := 6
  const RADIUS_LG: int := 8
  const RADIUS_XL: int := 12
  const RADIUS_2XL: int := 16
  /** Large enough to round any control fully. */
  const RADIUS_FULL: int := 9999

  const BORDER_0: int := 0
  const BORDER_1: int := 1
  const BORDER_2: int := 2
  const BORDER_4: int := 4
  const BORDER_8: int := 8

  // Semantic aliases of class `Borders`.
  const RADIUS_BUTTON: int := RADIUS_MD
  const RADIUS_INPUT: int := RADIUS_BASE
  const RADIUS_CARD: int := RADIUS_LG
  const RADIUS_MODAL: int := RADIUS_XL
  const RADIUS_PILL: int := RADIUS_FULL
  const WIDTH_THIN: int := BORDER_1
  const WIDTH_THICK: int := BORDER_2
  const WIDTH_FOCUS: int := BORDER_2

  const Radii: seq<int> :=
    [RADIUS_NONE, RADIUS_SM, RADIUS_BASE, RADIUS_MD, RADIUS_LG, RADIUS_XL, RADIUS_2XL, RADIUS_FULL]

  const Widths: seq<int> := [BORDER_0, BORDER_1, BORDER_2, BORDER_4, BORDER_8]

  /** Radii grow strictly from NONE (0) to FULL (9999). */
  lemma RadiiIncreasing()
    ensures Orders.StrictlyIncreasing(Radii)
    ensures Radii[0] == 0 && Radii[|Radii| - 1] == 9999
  {
    Orders.StepsUpIsIncreasing(Radii);
  }

  /** Widths grow strictly: 0 < 1 < 2 < 4 < 8. */
  lemma WidthsIncreasing()
    ensures Orders.StrictlyIncreasing(Widths)
    ensures Widths == [0, 1, 2, 4, 8]
  {
    Orders.StepsUpIsIncreasing(Widths);
  }

  /** The component radii alias the scale; the pill radius is the largest radius. */
  lemma RadiusAliases()
    ensures RADIUS_BUTTON == RADIUS_MD == 6
    ensures RADIUS_INPUT == RADIUS_BASE == 4
    ensures RADIUS_CARD == 8 && RADIUS_MODAL == 12
    ensures RADIUS_PILL == RADIUS_FULL
    ensures forall k :: 0 <= k < |Radii| ==> Radii[k] <= RADIUS_PILL
  {
  }

  /** Focus rings use the thick width, which is wider than the thin one. */
  lemma WidthAliases()
    ensures WIDTH_FOCUS == WIDTH_THICK == 2 && WIDTH_THIN == 1
    ensures WIDTH_THIN < WIDTH_FOCUS
  {
  }
}
