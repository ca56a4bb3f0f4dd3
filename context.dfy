/**
 * The request context the callbacks receive as `handler`: the incoming message,
 * the bottle count shown in status lines (`handler.bottles`), and the pending
 * question set by `handler.set_question`. The handler class itself and its
 * `reply_message` are addressed only through this interface; a reply is an
 * output event: a body (the fixed texts are kept opaque), an optional status
 * line, buttons and the delivery flags.
 */
module Context {

  import opened Optional
  import opened Messages
  import opened Interface

  /** The reply texts: constants of the messages/strings modules, a forwarded
      message (`MESSAGE_INTRO.format(name) + text`) or a literal text. */
  datatype Body =
    | Welcome          // messages.WELCOME
    | BottlesHelp      // messages.BOTTLES_HELP
    | NoMessageEver    // messages.NO_MESSAGE_EVER
    | YouAgain         // messages.YOU_AGAIN
    | NoMoreBottle     // messages.NO_MORE_BOTTLE
    | BalloonsWelcome  // strings.WELCOME
    | BalloonsHelp     // strings.BALLOONS_HELP
    | Forwarded(name: string, text: string)
    | Plain(text: string)

  /** One call of `reply_message`; `status` is the appended
      `STATUS.format(bottles=...)` line, when there is one. */
  datatype Reply = Reply(body: Body, status: Option<int>, buttons: seq<Button>,
                         markdown: bool, noPreview: bool)

  function Say(body: Body): Reply {
    Reply(body, None, [], false, false)
  }

  /** What handling an event produced: one reply, nothing, or an exception
      escaping the handler (a missing record, a bad index, a failed parse). */
  datatype Outcome = Replied(reply: Reply) | Silent | Failed

  /** `models.Question(name, params)`; the only parameter used is `reply_to`. */
  datatype Question = Question(name: string, replyTo: Option<string>)

  class Handler {
    const message: IncomingMessage
    var bottles: int
    var question: Option<Question>

    constructor (message: IncomingMessage)
      ensures this.message == message && bottles == 0 && question == None
    {
      this.message := message;
      bottles := 0;
      question := None;
    }

    method SetQuestion(q: Question)
      modifies this`question
      ensures question == Some(q)
    {
      question := Some(q);
    }
  }
}
