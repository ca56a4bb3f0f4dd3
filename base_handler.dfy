/**
 * `BaseHandler.handle` of src/handlers/base.py: the early answer to a hello
 * message, then the timestamp-keyed exchange on the messages table, where a
 * user is the pair (application, id). `get_message` and `is_hello_message` are
 * platform hooks: their results are parameters here.
 */
module BaseHandlers {

  import opened Optional
  import opened Hashtags
  import opened Context
  import opened Interface
  import opened TimedPairing

  const OkResponse: int := 200

  /** `models.User`: equal when both the application and the id are. */
  datatype PlatformUser = PlatformUser(application: string, id: string)

  /** `models.Message`, without `raw`. */
  datatype Message = Message(user: PlatformUser, senderDisplayName: string, text: string)

  /** The reply for each outcome of the exchange (shared with the Telegram
      handler, a subclass). */
  function Answer<U>(p: Pairing<U>): Reply {
    match p
    case NoCandidate => Say(NoMessageEver)
    case SameSender => Say(YouAgain)
    case Delivered(from) => Reply(Forwarded(from.name, from.text), None, [], false, true)
  }

  class BaseHandler {
    var message: Option<Message>

    constructor ()
      ensures message == None
    {
      message := None;
    }

    /** `handle`: a hello message is welcomed and nothing is written; every other
        message goes through the exchange under its tags key, at `now`. */
    method Handle(msg: Message, hello: bool, now: int, table: TimedMessages<PlatformUser>)
      returns (status: int, reply: Reply)
      modifies this, table
      ensures message == Some(msg) && status == OkResponse
      ensures hello ==> reply == Reply(Welcome, None, [], true, false) && table.rows == old(table.rows)
      ensures !hello ==>
        var tags := ExtractAndSortHashtags(msg.text, DefaultTags);
        var r := Exchange(old(table.rows), tags, now, Posted(msg.user, msg.senderDisplayName, msg.text));
        table.rows == r.1 && reply == Answer(r.0)
    {
      message := Some(msg);
      if hello {
        return OkResponse, Reply(Welcome, None, [], true, false);
      }
      var tags := ExtractAndSortHashtags(msg.text, DefaultTags);
      var p := Pair(table, tags, now, Posted(msg.user, msg.senderDisplayName, msg.text));
      return OkResponse, Answer(p);
    }
  }
}
