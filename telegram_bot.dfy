/**
 * `TelegramHandler.handle` of src/telegram.py: the Telegram webhook of the first
 * generation. Updates without a text message are acknowledged and ignored,
 * `/start` is welcomed, and every other text goes through the timestamp-keyed
 * exchange, where a user is Telegram's numeric `from.id`.
 */
module TelegramBot {

  import opened Optional
  import opened Hashtags
  import opened Context
  import opened Interface
  import opened TimedPairing
  import opened BaseHandlers

  /** The `from` object of a Telegram message. */
  datatype Sender = Sender(id: int, firstName: string)

  datatype TgMessage = TgMessage(text: Option<string>, sender: Sender)

  /** A parsed update: `message` is absent for other kinds of update. */
  datatype Update = Update(message: Option<TgMessage>)

  /** Every path acknowledges the update; only a text other than `/start` touches
      the table, and then exactly as the exchange says. */
  method Handle(update: Update, now: int, table: TimedMessages<int>)
    returns (status: int, reply: Option<Reply>)
    modifies table
    ensures status == OkResponse
    ensures (update.message.None? || update.message.value.text.None?) ==>
      reply == None && table.rows == old(table.rows)
    ensures update.message.Some? && update.message.value.text == Some("/start") ==>
      reply == Some(Reply(Welcome, None, [], true, false)) && table.rows == old(table.rows)
    ensures update.message.Some? && update.message.value.text.Some? && update.message.value.text.value != "/start" ==>
      var m := update.message.value;
      var r := Exchange(old(table.rows), ExtractAndSortHashtags(m.text.value, DefaultTags), now,
                        Posted(m.sender.id, m.sender.firstName, m.text.value));
      table.rows == r.1 && reply == Some(Answer(r.0))
  {
    if update.message.None? {
      return OkResponse, None;
    }
    var message := update.message.value;
    if message.text.None? {
      return OkResponse, None;
    }
    var text := message.text.value;
    if text == "/start" {
      return OkResponse, Some(Reply(Welcome, None, [], true, false));
    }
    var tags := ExtractAndSortHashtags(text, DefaultTags);
    var p := Pair(table, tags, now, Posted(message.sender.id, message.sender.firstName, text));
    return OkResponse, Some(Answer(p));
  }
}
