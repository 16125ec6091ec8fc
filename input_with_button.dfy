/**
 * The InputWithButton molecule: an outlined Input that fills the row,
 * followed by a primary Button with a send icon. The input's submit
 * gesture and the button's click go to two separate caller handlers.
 */
module Molecules {
  import opened Widgets
  import InputAtom
  import ButtonAtom

  /** The InputWithButton molecule. */
  function InputWithButton(placeholder: string := "Type here...", buttonText: string := "Send",
                           onSend: Option<Callback> := None, onSubmit: Option<Callback> := None): (n: Node)
    ensures n.Row? && |n.controls| == 2 && n.spacing == 8 && n.mainAxis.None?
    ensures n.controls[0].Container? && n.controls[0].expand && n.controls[0].content.TextField?
    ensures n.controls[1].Container? && n.controls[1].content.Row?
  {
    var inputField := InputAtom.Input(placeholder := placeholder, variant := "outlined", onSubmit := onSubmit);
    var sendButton := ButtonAtom.Button(text := buttonText, variant := "primary", icon := Some(Send), onClick := onSend);
    Row([Box(inputField).(expand := true), sendButton], None, 8)
  }

  /** The input is the outlined, medium-sized field showing the placeholder, with no change handler. */
  lemma InputIsOutlinedMedium(placeholder: string, buttonText: string, onSend: Option<Callback>, onSubmit: Option<Callback>)
    ensures var field := InputWithButton(placeholder, buttonText, onSend, onSubmit).controls[0].content;
      && field == InputAtom.Input(placeholder, "outlined", "medium", None, onSubmit)
      && field.inputBorder == Outline && field.hintText == placeholder
      && field.height == Some(40) && field.textSize == 14 && field.onChange.None?
  {
  }

  /** The button is the medium primary button labelled `buttonText` with the SEND icon before the label. */
  lemma ButtonIsPrimarySend(placeholder: string, buttonText: string, onSend: Option<Callback>, onSubmit: Option<Callback>)
    ensures var button := InputWithButton(placeholder, buttonText, onSend, onSubmit).controls[1];
      && button == ButtonAtom.Button(buttonText, "primary", "medium", onSend, Some(Send))
      && button.bgcolor == Some(Flet(Blue)) && button.height == Some(40)
      && button.content.controls == [Icon(Send, Some(16), None), ButtonAtom.Label(buttonText)]
  {
  }

  /**
   * A submit gesture can only reach `onSubmit`, through the input; a click
   * can only reach `onSend`, through the button. Neither handler is
   * attached to the other child, even when the caller passes the same one twice.
   */
  lemma {:induction false} HandlersNotSwapped(placeholder: string, buttonText: string,
                                              onSend: Option<Callback>, onSubmit: Option<Callback>)
    ensures var n := InputWithButton(placeholder, buttonText, onSend, onSubmit);
      && SubmitHandlers(n) == OptionSet(onSubmit) && ClickHandlers(n) == OptionSet(onSend)
      && SubmitHandlers(n.controls[0]) == OptionSet(onSubmit) && ClickHandlers(n.controls[0]) == {}
      && SubmitHandlers(n.controls[1]) == {} && ClickHandlers(n.controls[1]) == OptionSet(onSend)
  {
    var n := InputWithButton(placeholder, buttonText, onSend, onSubmit);
    var field, button := n.controls[0], n.controls[1];
    assert n.controls == [field, button];
    HandlersOfPair(field, button);
    WrappedFieldHandlers(field);
    ClickableRowHandlers(button);
  }
}
