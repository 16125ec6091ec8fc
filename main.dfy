/**
 * The Echo Chat page. Submitting the message field, or clicking the send
 * button next to it, runs `send_message`: a value that is not blank is
 * appended to the chat list as the user's bubble followed by its echo,
 * and the field is cleared. The stored text is the raw value; only the
 * blank test looks at its stripped form.
 */
module EchoChat {
  import opened Widgets
  import opened PyText
  import MessageBubbles

  /** The user's entry, as `send_message` builds it inline. */
  function UserEntry(value: string): (n: Node)
    ensures n == MessageBubbles.MessageBubble(value, "You", true)
  {
    Container(Text("You: " + value, None, None, Some(Flet(White))),
              bgcolor := Some(Flet(Blue)), border := None, borderRadius := Some(10),
              padding := Some(All(10)), height := None, alignment := Some(CenterRight),
              onClick := None, ink := false, expand := false)
  }

  /** The echo entry, as `send_message` builds it inline. */
  function EchoEntry(value: string): (n: Node)
    ensures n == MessageBubbles.MessageBubble(value, "Echo", false)
  {
    Container(Text("Echo: " + value, None, None, Some(Flet(White))),
              bgcolor := Some(Flet(Grey)), border := None, borderRadius := Some(10),
              padding := Some(All(10)), height := None, alignment := Some(CenterLeft),
              onClick := None, ink := false, expand := false)
  }

  /** The chat list after the values in `sent` were sent one by one, oldest first. */
  function Transcript(sent: seq<string>): (cs: seq<Node>)
    ensures |cs| == 2 * |sent|
  {
    if sent == [] then []
    else
      var last := sent[|sent| - 1];
      Transcript(sent[..|sent| - 1]) + [UserEntry(last), EchoEntry(last)]
  }

  /** One more send appends the user's entry and then its echo. */
  lemma TranscriptSnoc(sent: seq<string>, value: string)
    ensures Transcript(sent + [value]) == Transcript(sent) + [UserEntry(value), EchoEntry(value)]
  {
    assert (sent + [value])[..|sent|] == sent;
  }

  /** Entries 2k and 2k+1 of the list are the user's k-th value and its echo. */
  lemma {:induction false} TranscriptAt(sent: seq<string>, k: nat)
    requires k < |sent|
    ensures Transcript(sent)[2 * k] == UserEntry(sent[k])
    ensures Transcript(sent)[2 * k + 1] == EchoEntry(sent[k])
  {
    if k < |sent| - 1 {
      TranscriptAt(sent[..|sent| - 1], k);
    }
  }

  /** Sending more values only appends their entries after the earlier ones. */
  lemma {:induction false} TranscriptAppend(before: seq<string>, more: seq<string>)
    ensures Transcript(before + more) == Transcript(before) + Transcript(more)
  {
    if more == [] {
      assert before + more == before;
    } else {
      var front, last := more[..|more| - 1], more[|more| - 1];
      assert more == front + [last];
      assert before + more == (before + front) + [last];
      TranscriptSnoc(before + front, last);
      TranscriptAppend(before, front);
      TranscriptSnoc(front, last);
    }
  }

  /** After n more sends the list has grown by exactly 2n entries, and the old list is untouched at its front. */
  lemma SendsOnlyGrow(before: seq<string>, more: seq<string>)
    ensures |Transcript(before + more)| == |Transcript(before)| + 2 * |more|
    ensures Transcript(before) <= Transcript(before + more)
    ensures Transcript(before + more)[|Transcript(before)|..] == Transcript(more)
  {
    TranscriptAppend(before, more);
  }

  /** Sending "a" and then "b" shows the user's "a", its echo, the user's "b", its echo. */
  lemma TwoSendsInOrder()
    ensures Transcript(["a", "b"]) == [UserEntry("a"), EchoEntry("a"), UserEntry("b"), EchoEntry("b")]
    ensures UserEntry("a").content.value == "You: a" && EchoEntry("b").content.value == "Echo: b"
  {
    assert ["a", "b"][..1] == ["a"];
    assert ["a"][..0] == [];
  }

  /** The two gestures that run `send_message`. */
  datatype PageEvent = FieldSubmitted | SendClicked

  /** The state of the page that `send_message` reads and writes. */
  class ChatPage {
    /** `chat_list.controls`. */
    var controls: seq<Node>
    /** `message_input.value`. */
    var inputValue: string
    /** How many times `page.update()` has been called. */
    var updates: nat
    /** The values sent so far, oldest first. */
    ghost var sent: seq<string>

    /** The list holds the entries of the values sent so far, and nothing else. */
    ghost predicate Valid()
      reads this
    {
      controls == Transcript(sent)
    }

    /** The page as `main` first shows it: an empty chat list and an empty field. */
    constructor ()
      ensures Valid()
      ensures controls == [] && inputValue == "" && updates == 0 && sent == []
    {
      controls := [];
      inputValue := "";
      updates := 0;
      sent := [];
    }

    /** The user types into the message field; the field's value is whatever they typed. */
    method Edit(value: string)
      requires Valid()
      modifies this`inputValue
      ensures Valid() && inputValue == value
    {
      inputValue := value;
    }

    /** `send_message`. */
    method SendMessage()
      requires Valid()
      modifies this`controls, this`inputValue, this`updates, this`sent
      ensures Valid()
      ensures old(controls) <= controls
      ensures IsBlank(old(inputValue)) ==>
        && controls == old(controls) && inputValue == old(inputValue)
        && updates == old(updates) && sent == old(sent)
      ensures !IsBlank(old(inputValue)) ==>
        && controls == old(controls) + [UserEntry(old(inputValue)), EchoEntry(old(inputValue))]
        && inputValue == "" && updates == old(updates) + 1
        && sent == old(sent) + [old(inputValue)]
    {
      var value := inputValue;
      if Strip(value) != "" {
        var user, echo := UserEntry(value), EchoEntry(value);
        controls := controls + [user];
        controls := controls + [echo];
        assert controls == old(controls) + [user, echo];
        TranscriptSnoc(sent, value);
        sent := sent + [value];
        inputValue := "";
        updates := updates + 1;
      }
    }

    /** Both the field's submit gesture and the send button run the same `send_message`. */
    method Dispatch(event: PageEvent)
      requires Valid()
      modifies this`controls, this`inputValue, this`updates, this`sent
      ensures Valid()
      ensures controls == old(controls) + (if IsBlank(old(inputValue)) then [] else Transcript([old(inputValue)]))
      ensures inputValue == (if IsBlank(old(inputValue)) then old(inputValue) else "")
      ensures updates == old(updates) + (if IsBlank(old(inputValue)) then 0 else 1)
    {
      match event
      case FieldSubmitted => SendMessage();
      case SendClicked => SendMessage();
    }
  }
}
