/**
 * `MessengerSender.send_message` of src/senders/messenger.py: the `post_data` of
 * a Send API call and the id of the message sent. The HTTP post is left out: the
 * `message_id` of the response is a parameter.
 */
module MessengerSender {

  import opened Optional
  import opened Strings
  import opened Messages
  import opened Interface

  const AppMessenger: string := "messenger"

  /** A `postback` element of the template: its `title` and its `payload`. */
  datatype TemplateButton = TemplateButton(title: string, payload: string)

  /** `message_json`: a button template, or the text alone. */
  datatype MessageJson = Template(text: string, buttons: seq<TemplateButton>) | TextOnly(text: string)

  datatype PostData = PostData(recipient: string, message: MessageJson)

  /** `user_id` without its `"messenger "` prefix. */
  function Recipient(userId: string): string {
    Replace(userId, AppMessenger + " ", "")
  }

  /** `send_message`: `None` when a `reply_to` has no second space-separated field
      (the IndexError); otherwise the returned id and the post data. `markdown` is
      accepted and ignored. */
  function SendMessage(message: SentMessage, markdown: bool, buttons: Option<seq<Button>>, resultMessageId: string)
    : (sent: Option<(string, PostData)>)
    ensures sent.None? <==> message.replyTo.Some? && |SplitOn(message.replyTo.value, ' ')| < 2
    ensures sent.Some? ==>
      && sent.value.0 == GenerateId(AppMessenger, resultMessageId)
      && sent.value.1.recipient == Recipient(message.userId)
      && (buttons.None? ==> sent.value.1.message == TextOnly(message.text))
      && (buttons.Some? ==>
            && sent.value.1.message.Template?
            && sent.value.1.message.text == message.text
            && |sent.value.1.message.buttons| == |buttons.value|
            && forall i :: 0 <= i < |buttons.value| ==>
                 sent.value.1.message.buttons[i] == TemplateButton(buttons.value[i].text, buttons.value[i].payload))
  {
    if message.replyTo.Some? && |SplitOn(message.replyTo.value, ' ')| < 2 then None
    else
      var body := match buttons
        case None => TextOnly(message.text)
        case Some(bs) => Template(message.text, seq(|bs|, i requires 0 <= i < |bs| => TemplateButton(bs[i].text, bs[i].payload)));
      Some((GenerateId(AppMessenger, resultMessageId), PostData(Recipient(message.userId), body)))
  }

  /** Neither `markdown` nor the message a reply answers changes what is posted. */
  lemma PostIgnoresMarkdownAndReplyTo(message: SentMessage, markdown: bool, buttons: Option<seq<Button>>,
                                      resultMessageId: string, replyTo: string)
    requires SendMessage(message, markdown, buttons, resultMessageId).Some?
    requires |SplitOn(replyTo, ' ')| >= 2
    ensures SendMessage(message.(replyTo := Some(replyTo)), !markdown, buttons, resultMessageId)
            == SendMessage(message, markdown, buttons, resultMessageId)
    ensures SendMessage(message.(replyTo := None), !markdown, buttons, resultMessageId)
            == SendMessage(message, markdown, buttons, resultMessageId)
  {
  }

  /** The user id a Messenger user is known by becomes the recipient again. */
  lemma RecipientRoundTrip(psid: string)
    requires !Occurs(AppMessenger + " ", psid)
    ensures Recipient(GenerateId(AppMessenger, psid)) == psid
  {
    assert GenerateId(AppMessenger, psid) == (AppMessenger + " ") + psid;
    ReplaceLeading(AppMessenger + " ", psid, "");
    ReplaceAbsent(psid, AppMessenger + " ", "");
  }

  /** The returned id names Messenger and the message sent. */
  lemma SentIdFields(resultMessageId: string)
    requires ' ' !in resultMessageId
    ensures SplitOn(GenerateId(AppMessenger, resultMessageId), ' ') == [AppMessenger, resultMessageId]
  {
    GenerateIdFields(AppMessenger, resultMessageId);
  }
}
