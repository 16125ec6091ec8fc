/** Spacing design tokens: a 4px grid and its semantic aliases. */
module Spacing {
  import Orders

  const BASE_UNIT: int := 4

  // The scale, one step of the grid at a time.
  const SPACE_0: int := 0
  const SPACE_1: int := BASE_UNIT * 1
  const SPACE_2: int := BASE_UNIT * 2
  const SPACE_3: int := BASE_UNIT * 3
  const SPACE_4: int := BASE_UNIT * 4
  const SPACE_5: int := BASE_UNIT * 5
  const SPACE_6: int := BASE_UNIT * 6
  const SPACE_8: int := BASE_UNIT * 8
  const SPACE_10: int := BASE_UNIT * 10
  const SPACE_12: int := BASE_UNIT * 12
  const SPACE_16: int := BASE_UNIT * 16
  const SPACE_20: int := BASE_UNIT * 20
  const SPACE_24: int := BASE_UNIT * 24
  const SPACE_32: int := BASE_UNIT * 32

  // Semantic aliases of class `Spacing`: component internals ...
  const XS: int := SPACE_1
  const SM: int := SPACE_2
  const MD: int := SPACE_4
  const LG: int := SPACE_6
  const XL: int := SPACE_8
  // ... page layout ...
  const SECTION: int := SPACE_12
  const PAGE: int := SPACE_16
  // ... and specific components.
  const BUTTON_PADDING_X: int := SPACE_4
  const BUTTON_PADDING_Y: int := SPACE_2
  const INPUT_PADDING_X: int := SPACE_3
  const INPUT_PADDING_Y: int := SPACE_2
  const CARD_PADDING: int := SPACE_6
  const MODAL_PADDING: int := SPACE_8

  /** The grid multiples named by the scale, in declaration order. */
  const Steps: seq<int> := [0, 1, 2, 3, 4, 5, 6, 8, 10, 12, 16, 20, 24, 32]

  /** The scale values `SPACE_0` .. `SPACE_32`, in declaration order. */
  const Scale: seq<int> :=
    [SPACE_0, SPACE_1, SPACE_2, SPACE_3, SPACE_4, SPACE_5, SPACE_6,
     SPACE_8, SPACE_10, SPACE_12, SPACE_16, SPACE_20, SPACE_24, SPACE_32]

  /** Every scale value is its step times the base unit: a non-negative multiple of 4. */
  lemma ScaleOnGrid()
    ensures |Scale| == |Steps|
    ensures forall k :: 0 <= k < |Scale| ==> Scale[k] == BASE_UNIT * Steps[k]
    ensures forall k :: 0 <= k < |Scale| ==> Scale[k] >= 0 && Scale[k] % 4 == 0
  {
  }

  /** The scale grows strictly from `SPACE_0` to `SPACE_32`. */
  lemma ScaleIncreasing()
    ensures Orders.StrictlyIncreasing(Scale)
  {
    Orders.StepsUpIsIncreasing(Scale);
  }

  /** The semantic sizes are strictly ordered and sit on the grid. */
  lemma SemanticOrder()
    ensures XS == 4 && SM == 8 && MD == 16 && LG == 24 && XL == 32
    ensures Orders.StrictlyIncreasing([XS, SM, MD, LG, XL])
  {
    Orders.StepsUpIsIncreasing([XS, SM, MD, LG, XL]);
  }

  /** Layout spacing is coarser than every component spacing. */
  lemma LayoutOrder()
    ensures XL < SECTION < PAGE && SECTION == 48 && PAGE == 64
  {
  }

  /** Component aliases resolve to the semantic sizes, and input padding sits between SM and MD. */
  lemma ComponentAliases()
    ensures BUTTON_PADDING_X == MD && BUTTON_PADDING_Y == SM
    ensures INPUT_PADDING_X == 12 && SM < INPUT_PADDING_X < MD
    ensures INPUT_PADDING_Y == SM && CARD_PADDING == LG && MODAL_PADDING == XL
  {
  }
}
