/** The MessageBubble component: one chat entry, coloured and aligned by who sent it. */
module MessageBubbles {
  import opened Widgets

  /** A "sender: message" label in white, blue and right-aligned for the user, grey and left-aligned otherwise. */
  function MessageBubble(message: string, sender: string := "You", isUser: bool := true): (n: Node)
    ensures n.Container? && n.content.Text?
    ensures n.content.value == sender + ": " + message && n.content.color == Some(Flet(White))
    ensures isUser <==> n.bgcolor == Some(Flet(Blue))
    ensures !isUser <==> n.bgcolor == Some(Flet(Grey))
    ensures isUser <==> n.alignment == Some(CenterRight)
    ensures !isUser <==> n.alignment == Some(CenterLeft)
    ensures n.padding == Some(All(10)) && n.borderRadius == Some(10)
    ensures n.onClick.None? && n.border.None?
  {
    Container(Text(sender + ": " + message, None, None, Some(Flet(White))),
              bgcolor := Some(Flet(if isUser then Blue else Grey)), border := None,
              borderRadius := Some(10), padding := Some(All(10)), height := None,
              alignment := Some(if isUser then CenterRight else CenterLeft),
              onClick := None, ink := false, expand := false)
  }

  /** Called with the message alone, the bubble is the user's own: sender "You", blue, on the right. */
  lemma DefaultsAreUser(message: string)
    ensures MessageBubble(message) == MessageBubble(message, "You", true)
    ensures MessageBubble(message).content.value == "You: " + message
  {
  }
}
