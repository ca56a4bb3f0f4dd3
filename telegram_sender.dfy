/**
 * `TelegramSender.send_message` of src/senders/telegram.py: the request data of
 * a `sendMessage` call and the id of the message sent. The HTTP post is left out:
 * the chat id and message id of the response are parameters. A callback payload
 * of 65 characters or more does not fit Telegram's limit and is replaced by an
 * alias from the callbacks table.
 */
module TelegramSender {

  import opened Optional
  import opened Strings
  import opened Messages
  import opened Command
  import opened Interface

  const AppTelegram: string := "telegram"
  const MaxPayload: nat := 65

  /** One key of the inline keyboard. */
  datatype Key = Key(text: string, callbackData: string)

  /** The `data` of the request; `parseMode` and `keyboard` are absent unless set. */
  datatype Request = Request(
    chatId: string,
    text: string,
    disableWebPagePreview: bool,
    replyToMessageId: Option<string>,
    parseMode: Option<string>,
    keyboard: Option<seq<seq<Key>>>)

  /** `user_id` without its `"telegram "` prefix. */
  function ChatId(userId: string): string {
    Replace(userId, AppTelegram + " ", "")
  }

  /** The third space-separated field of `reply_to`; `None` as the value when there
      is no `reply_to`, and `None` as the result (the IndexError) when it has
      fewer than three fields. */
  function ReplyToMessageId(replyTo: Option<string>): Option<Option<string>> {
    match replyTo
    case None => Some(None)
    case Some(r) =>
      var fields := SplitOn(r, ' ');
      if |fields| >= 3 then Some(Some(fields[2])) else None
  }

  /** The user id a Telegram chat is known by becomes the chat id again. */
  lemma ChatIdRoundTrip(chat: string)
    requires !Occurs(AppTelegram + " ", chat)
    ensures ChatId(GenerateId(AppTelegram, chat)) == chat
  {
    assert GenerateId(AppTelegram, chat) == (AppTelegram + " ") + chat;
    ReplaceLeading(AppTelegram + " ", chat, "");
    ReplaceAbsent(chat, AppTelegram + " ", "");
  }

  /** The id returned for a sent message, used later as a `reply_to`, designates
      that message again. */
  lemma SentIdRoundTrip(chat: string, messageId: string)
    requires ' ' !in chat && ' ' !in messageId
    ensures ReplyToMessageId(Some(GenerateId(AppTelegram, chat + " " + messageId))) == Some(Some(messageId))
  {
    var id := GenerateId(AppTelegram, chat + " " + messageId);
    assert [AppTelegram, chat, messageId][1..] == [chat, messageId];
    assert Join([chat, messageId], " ") == chat + " " + messageId;
    assert id == Join([AppTelegram, chat, messageId], " ");
    SplitJoin([AppTelegram, chat, messageId], ' ');
  }

  /** The key built for button b: its payload, or an alias that resolves to it. */
  ghost predicate KeyFor(aliases: map<string, string>, b: Button, k: Key) {
    && k.text == b.text
    && (|b.payload| < MaxPayload ==> k.callbackData == b.payload)
    && (|b.payload| >= MaxPayload ==>
          StartsWith(k.callbackData, ":") && Resolve(aliases, k.callbackData) == Some(b.payload))
  }

  /** One row per button, in order, each a key for its button. */
  ghost predicate KeyboardFor(aliases: map<string, string>, buttons: seq<Button>, rows: seq<seq<Key>>) {
    && |rows| == |buttons|
    && forall i :: 0 <= i < |rows| ==> |rows[i]| == 1 && KeyFor(aliases, buttons[i], rows[i][0])
  }

  /** Storing a fresh alias keeps every earlier key resolving to its payload. */
  lemma KeyForKept(aliases: map<string, string>, issued: nat, path: string, b: Button, k: Key)
    requires Issued(aliases, issued)
    requires KeyFor(aliases, b, k)
    ensures KeyFor(aliases[NatToString(issued) := path], b, k)
  {
    AliasRoundTrip(aliases, issued, path, k.callbackData);
  }

  /** How many of the buttons have a payload too long for a key. */
  function LongPayloads(buttons: seq<Button>): nat {
    if buttons == [] then 0
    else LongPayloads(buttons[..|buttons| - 1]) + (if |buttons[|buttons| - 1].payload| >= MaxPayload then 1 else 0)
  }

  /** From `before` to `after` the table only grew, and each new alias stores the
      long payload of one of the first `n` buttons. */
  ghost predicate AliasesFor(before: map<string, string>, after: map<string, string>, buttons: seq<Button>, n: nat)
    requires n <= |buttons|
  {
    && (forall id :: id in before ==> id in after && after[id] == before[id])
    && (forall id :: id in after && id !in before ==>
          exists j :: 0 <= j < n && |buttons[j].payload| >= MaxPayload && after[id] == buttons[j].payload)
  }

  /** One more key keeps the keyboard a keyboard for one more button. */
  lemma KeyboardGrows(before: map<string, string>, issued: nat, after: map<string, string>,
                      buttons: seq<Button>, i: nat, rows: seq<seq<Key>>, k: Key)
    requires i < |buttons|
    requires Issued(before, issued)
    requires KeyboardFor(before, buttons[..i], rows)
    requires KeyFor(after, buttons[i], k)
    requires after == before || after == before[NatToString(issued) := buttons[i].payload]
    ensures KeyboardFor(after, buttons[..i + 1], rows + [[k]])
  {
    forall j | 0 <= j < |rows|
      ensures KeyFor(after, buttons[j], rows[j][0])
    {
      if after != before {
        KeyForKept(before, issued, buttons[i].payload, buttons[j], rows[j][0]);
      }
    }
  }

  /** Storing button i's long payload under a fresh id, or nothing, keeps the new
      aliases those of the long payloads, now of the first i + 1 buttons. */
  lemma AliasesGrow(orig: map<string, string>, before: map<string, string>, after: map<string, string>,
                    buttons: seq<Button>, i: nat, id: string)
    requires i < |buttons|
    requires AliasesFor(orig, before, buttons, i)
    requires after == before || (|buttons[i].payload| >= MaxPayload && id !in before && after == before[id := buttons[i].payload])
    ensures AliasesFor(orig, after, buttons, i + 1)
  {
    forall x | x in after && x !in orig
      ensures exists j :: 0 <= j < i + 1 && |buttons[j].payload| >= MaxPayload && after[x] == buttons[j].payload
    {
      if after != before && x == id {
        assert after[x] == buttons[i].payload;
      } else {
        assert x in before;
      }
    }
  }

  /** The key of one button: its payload, or a fresh `dynamic` alias of it. */
  method MakeKey(b: Button, aliases: CallbackAliases) returns (k: Key)
    requires aliases.Valid()
    modifies aliases
    ensures aliases.Valid()
    ensures KeyFor(aliases.rows, b, k)
    ensures |b.payload| < MaxPayload ==> aliases.rows == old(aliases.rows) && aliases.issued == old(aliases.issued)
    ensures |b.payload| >= MaxPayload ==>
      && NatToString(old(aliases.issued)) !in old(aliases.rows)
      && aliases.rows == old(aliases.rows)[NatToString(old(aliases.issued)) := b.payload]
      && aliases.issued == old(aliases.issued) + 1
  {
    var data := b.payload;
    if |b.payload| >= MaxPayload {
      data := aliases.Dynamic(b.payload);
    }
    k := Key(b.text, data);
  }

  /** The inline keyboard: a `dynamic` alias for every long payload, and no other. */
  method Keyboard(buttons: seq<Button>, aliases: CallbackAliases) returns (rows: seq<seq<Key>>)
    requires aliases.Valid()
    modifies aliases
    ensures aliases.Valid()
    ensures KeyboardFor(aliases.rows, buttons, rows)
    ensures AliasesFor(old(aliases.rows), aliases.rows, buttons, |buttons|)
    ensures aliases.issued == old(aliases.issued) + LongPayloads(buttons)
    ensures |aliases.rows| == |old(aliases.rows)| + LongPayloads(buttons)
  {
    rows := [];
    var i := 0;
    while i < |buttons|
      invariant 0 <= i <= |buttons|
      invariant aliases.Valid()
      invariant KeyboardFor(aliases.rows, buttons[..i], rows)
      invariant AliasesFor(old(aliases.rows), aliases.rows, buttons, i)
      invariant aliases.issued == old(aliases.issued) + LongPayloads(buttons[..i])
      invariant |aliases.rows| == |old(aliases.rows)| + LongPayloads(buttons[..i])
    {
      ghost var before := aliases.rows;
      ghost var issued := aliases.issued;
      var k := MakeKey(buttons[i], aliases);
      KeyboardGrows(before, issued, aliases.rows, buttons, i, rows, k);
      AliasesGrow(old(aliases.rows), before, aliases.rows, buttons, i, NatToString(issued));
      assert buttons[..i + 1][..i] == buttons[..i];
      rows := rows + [[k]];
      i := i + 1;
    }
    assert buttons[..i] == buttons;
  }

  /** `send_message`: `None` when `reply_to` has fewer than three fields (before
      any alias is stored); otherwise the returned id and the request data. */
  method SendMessage(message: SentMessage, markdown: bool, buttons: Option<seq<Button>>,
                     aliases: CallbackAliases, resultChat: string, resultMessageId: string)
    returns (sent: Option<(string, Request)>)
    requires aliases.Valid()
    modifies aliases
    ensures aliases.Valid()
    ensures ReplyToMessageId(message.replyTo).None? ==> sent == None
    ensures ReplyToMessageId(message.replyTo).Some? ==>
      && sent.Some?
      && sent.value.0 == GenerateId(AppTelegram, resultChat + " " + resultMessageId)
      && var data := sent.value.1;
      && data.chatId == ChatId(message.userId)
      && data.text == message.text
      && data.disableWebPagePreview
      && data.replyToMessageId == ReplyToMessageId(message.replyTo).value
      && data.parseMode == (if markdown then Some("Markdown") else None)
      && (buttons.None? ==> data.keyboard == None)
      && (buttons.Some? ==> data.keyboard.Some? && KeyboardFor(aliases.rows, buttons.value, data.keyboard.value))
    ensures buttons.Some? && ReplyToMessageId(message.replyTo).Some? ==>
      && AliasesFor(old(aliases.rows), aliases.rows, buttons.value, |buttons.value|)
      && aliases.issued == old(aliases.issued) + LongPayloads(buttons.value)
      && |aliases.rows| == |old(aliases.rows)| + LongPayloads(buttons.value)
    ensures buttons.None? || ReplyToMessageId(message.replyTo).None? ==>
      aliases.rows == old(aliases.rows) && aliases.issued == old(aliases.issued)
  {
    var chatId := ChatId(message.userId);
    var replyTo := ReplyToMessageId(message.replyTo);
    if replyTo.None? {
      return None;
    }
    var parseMode: Option<string> := None;
    if markdown {
      parseMode := Some("Markdown");
    }
    var keyboard: Option<seq<seq<Key>>> := None;
    if buttons.Some? {
      var rows := Keyboard(buttons.value, aliases);
      keyboard := Some(rows);
    }
    var data := Request(chatId, message.text, true, replyTo.value, parseMode, keyboard);
    sent := Some((GenerateId(AppTelegram, resultChat + " " + resultMessageId), data));
  }
}
