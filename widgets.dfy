/**
 * The fragment of Flet's control vocabulary that the components build.
 *
 * A rendered component is an immutable tree of `Node` values. Colours,
 * icons and event handlers are opaque identifiers: the components only
 * choose them and pass them through, they never inspect them.
 */
module Widgets {

  datatype Option<+T> = None | Some(value: T)

  /** The set holding the value of `o`, if any. */
  function OptionSet<T>(o: Option<T>): (s: set<T>)
    ensures o.None? <==> s == {}
    ensures o.Some? ==> o.value in s && |s| == 1
  {
    match o
    case None => {}
    case Some(x) => {x}
  }

  /** Named colours of `ft.Colors` that the components use. */
  datatype FletColor = Blue | White | Black | Red | Grey | Grey100 | Grey300 | Transparent

  /**
   * Semantic colour tokens of `design_tokens.colors.Colors`. Their concrete
   * values are not part of this model: two different tokens are two
   * different names, not necessarily two different colours.
   */
  datatype ColorToken = Primary | SecondaryLight | Danger | TextPrimary | TextInverse | TokenWhite

  datatype Color = Flet(named: FletColor) | Token(token: ColorToken)

  /** `ft.Icons` members; only SEND is named by the components. */
  datatype IconName = Send | OtherIcon(name: string)

  /** `ft.FontWeight` members W_300 .. W_700. */
  datatype FontWeight = W300 | W400 | W500 | W600 | W700
  {
    /** The numeric CSS weight the member stands for. */
    function Value(): (w: int)
      ensures 300 <= w <= 700 && w % 100 == 0
    {
      match this
      case W300 => 300
      case W400 => 400
      case W500 => 500
      case W600 => 600
      case W700 => 700
    }
  }

  /** `ft.InputBorder` members. */
  datatype InputBorder = Underline | Outline | NoBorder

  /** `ft.alignment.center_left`, `center_right`, `center`. */
  datatype Alignment = CenterLeft | CenterRight | Center

  /** `ft.MainAxisAlignment` members used by rows. */
  datatype MainAxisAlignment = MainCenter

  /** `ft.padding.Padding`, one width per side. */
  datatype Padding = Padding(left: int, top: int, right: int, bottom: int)

  /** `ft.padding.symmetric(vertical=0, horizontal=0)`. */
  function Symmetric(horizontal: int, vertical: int := 0): (p: Padding)
    ensures p.left == p.right == horizontal && p.top == p.bottom == vertical
  {
    Padding(horizontal, vertical, horizontal, vertical)
  }

  /** The padding Flet derives from a bare number: the same width on every side. */
  function All(width: int): (p: Padding)
    ensures p == Symmetric(width, width)
  {
    Padding(width, width, width, width)
  }

  /** `ft.border.all(width, color)`: the same side on all four edges. */
  datatype Border = Border(width: int, color: Color)

  /** An event handler, known only by its identity. */
  datatype Callback = Callback(id: nat)

  /**
   * The controls the components build. An attribute that the Python call
   * leaves out is `None` (Flet's own default then applies).
   */
  datatype Node =
    | Container(content: Node, bgcolor: Option<Color>, border: Option<Border>,
                borderRadius: Option<int>, padding: Option<Padding>, height: Option<int>,
                alignment: Option<Alignment>, onClick: Option<Callback>, ink: bool, expand: bool)
    | Row(controls: seq<Node>, mainAxis: Option<MainAxisAlignment>, spacing: int)
    | Text(value: string, weight: Option<FontWeight>, size: Option<int>, color: Option<Color>)
    | Icon(name: IconName, size: Option<int>, color: Option<Color>)
    | TextField(hintText: string, inputBorder: InputBorder, bgcolor: Option<Color>,
                height: Option<int>, textSize: int, onChange: Option<Callback>,
                onSubmit: Option<Callback>, borderRadius: Option<int>)

  /** `ft.Container(content)` with every other argument left at its default. */
  function Box(content: Node): (n: Node)
    ensures n.Container? && n.content == content && !n.ink && !n.expand
    ensures n.onClick.None? && n.bgcolor.None? && n.border.None?
  {
    Container(content, None, None, None, None, None, None, None, false, false)
  }

  /** Handlers that a submit gesture on some text field of `n` can fire. */
  function SubmitHandlers(n: Node): set<Callback>
    decreases n
  {
    match n
    case Container(c, _, _, _, _, _, _, _, _, _) => SubmitHandlers(c)
    case Row(cs, _, _) => SubmitHandlersOf(cs)
    case TextField(_, _, _, _, _, _, onSubmit, _) => OptionSet(onSubmit)
    case Text(_, _, _, _) => {}
    case Icon(_, _, _) => {}
  }

  function SubmitHandlersOf(cs: seq<Node>): set<Callback>
    decreases cs
  {
    if cs == [] then {} else SubmitHandlers(cs[0]) + SubmitHandlersOf(cs[1..])
  }

  /** Handlers that a click on some container of `n` can fire. */
  function ClickHandlers(n: Node): set<Callback>
    decreases n
  {
    match n
    case Container(c, _, _, _, _, _, _, onClick, _, _) => OptionSet(onClick) + ClickHandlers(c)
    case Row(cs, _, _) => ClickHandlersOf(cs)
    case TextField(_, _, _, _, _, _, _, _) => {}
    case Text(_, _, _, _) => {}
    case Icon(_, _, _) => {}
  }

  function ClickHandlersOf(cs: seq<Node>): set<Callback>
    decreases cs
  {
    if cs == [] then {} else ClickHandlers(cs[0]) + ClickHandlersOf(cs[1..])
  }

  /** The handlers of a two-control row are those of its two controls. */
  lemma HandlersOfPair(a: Node, b: Node)
    ensures SubmitHandlersOf([a, b]) == SubmitHandlers(a) + SubmitHandlers(b)
    ensures ClickHandlersOf([a, b]) == ClickHandlers(a) + ClickHandlers(b)
  {
    assert [a, b][1..] == [b] && [b][1..] == [];
    assert SubmitHandlersOf([b]) == SubmitHandlers(b) + SubmitHandlersOf([]);
    assert ClickHandlersOf([b]) == ClickHandlers(b) + ClickHandlersOf([]);
  }

  /** Texts and icons carry no handlers, so a list of them fires nothing. */
  lemma {:induction false} LeavesFireNothing(cs: seq<Node>)
    requires forall k :: 0 <= k < |cs| ==> cs[k].Text? || cs[k].Icon?
    ensures SubmitHandlersOf(cs) == {} && ClickHandlersOf(cs) == {}
  {
    if cs != [] {
      LeavesFireNothing(cs[1..]);
    }
  }

  /** A clickable container around a row of texts and icons fires only its own click handler. */
  lemma ClickableRowHandlers(n: Node)
    requires n.Container? && n.content.Row?
    requires forall k :: 0 <= k < |n.content.controls| ==> n.content.controls[k].Text? || n.content.controls[k].Icon?
    ensures SubmitHandlers(n) == {} && ClickHandlers(n) == OptionSet(n.onClick)
  {
    LeavesFireNothing(n.content.controls);
  }

  /** A plain container around a text field fires only the field's submit handler. */
  lemma WrappedFieldHandlers(n: Node)
    requires n.Container? && n.onClick.None? && n.content.TextField?
    ensures SubmitHandlers(n) == OptionSet(n.content.onSubmit) && ClickHandlers(n) == {}
  {
  }
}
