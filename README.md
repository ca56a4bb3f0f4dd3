# messageinbottle, modelled in Dafny

messageinbottle is a chat bot for Telegram and Facebook Messenger. It exchanges
anonymous messages. A message goes into a channel named by its sorted hashtags
(`world` when it has none). The sender then gets back an earlier message of the same
channel from someone else, or is told that there is none yet. This project models
the core of the bot:

- **The channel key** (`layers/messages.py`, with identical copies in
  `src/handlers.py` and `src/handlers/base.py`): the sorted set of `#`-tokens,
  without their `#`, joined by spaces.
- **The timestamp-keyed exchange of the first generation** (`src/handlers/base.py`,
  `src/telegram.py`, `src/callbacks/callbacks.py`):
  1. store the message under (tags, now);
  2. query the unclaimed earlier records newest first;
  3. answer "no message ever" or "you again";
  4. otherwise claim the first record whose `sent_to` is still unset and deliver it.
  The table is a class over a map (`TimedPairing.TimedMessages`). The claim loop is
  a `while` loop over conditional updates. `TimedPairing.Exchange` is its pure
  specification.
- **The bottle quota** (`remove_bottle`): a message costs one bottle. With none
  left, a message still goes through once twelve hours have passed since the
  record's timestamp.
- **The sequence-keyed exchange of the second generation** (`src/callbacks/text.py`):
  1. every channel has a counter;
  2. the message takes the next number and is stored under (tags, seq);
  3. it is paired with the record (tags, seq - 1).
  `TextCallback.Dense` is the invariant that the counters and records keep together.
- **The balloon commands** (`src/callbacks/command.py`):
  - aliases for long callback paths;
  - the free-balloon claim, which credits the original sender at most once;
  - the reply targets;
  - the trending list, gathered and then insertion-sorted in place on an `array`;
  - the echo of an unknown command.
- **The two senders** (`src/senders/telegram.py`, `src/senders/messenger.py`): the
  request data each builds, and the id each returns for the message sent.

How external things are represented:

- Each DynamoDB table is a class over a `map`. Each `update_item` is one atomic
  method and is proved against a pure step function.
- Time is a parameter: microseconds since the epoch, or a day number for the
  trending query.
- The HTTP responses of the senders are parameters.
- The handler's `reply_message` is a returned `Reply` value.
- An exception that escapes a handler is the outcome `Failed`.

## Model

| member | source | states |
|---|---|---|
| Hashtags.TagList | layers/messages.py:61 | a tag is exactly a `#`-token of the text with its `#` removed |
| Hashtags.ExtractAndSortHashtags | layers/messages.py:59-67 | with no hashtag the key is the default joined by spaces; otherwise its space-separated fields are strictly sorted and are exactly the text's hashtags |
| Hashtags.TagListAppend | layers/messages.py:61 | the tag list of concatenated token lists is the concatenation of their tag lists |
| Hashtags.HashtagsHaveNoSpace | layers/messages.py:61 | no hashtag contains whitespace, so the key splits back into its hashtags |
| Hashtags.SameHashtagsSameKey | layers/messages.py:59-67 | two texts with the same set of hashtags fall in the same channel |
| Hashtags.HashtagSetAppend | layers/messages.py:61 | the hashtags of two texts joined by a space are the union of their hashtags |
| Hashtags.ReorderKeepsKey | src/handlers.py:5-11 | swapping two parts of a text does not change its channel |
| Hashtags.RepeatKeepsKey | src/handlers/base.py:15-21 | repeating a text's tokens does not change its channel |
| Hashtags.PlainTokensIgnored | layers/messages.py:61 | tokens that do not start with `#` do not affect the channel |
| Hashtags.HashtagsOfTokens | layers/messages.py:61 | for a text built from tokens, its hashtags are those tokens that start with `#`, minus the `#` |
| Hashtags.SingleHashtagKey | layers/messages.py:59-67 | a text that is the single token `#w` goes to the channel `w` |
| Hashtags.DistinctHashtagsDistinctChannels | layers/messages.py:59-67 | two different single hashtags, differing only in case for instance, give two different channels |
| Hashtags.BareHashIsEmptyTag | layers/messages.py:61 | a bare `#` is the empty hashtag, so the key is the empty string, not `world` |
| Hashtags.NoHashtagIsWorld | src/handlers/base.py:42 | a text without hashtags goes to the `world` channel |
| Strings.Words | layers/messages.py:61 | `str.split()` yields non-empty tokens without whitespace |
| Strings.SortedSet | layers/messages.py:60-62 | `sorted(set(xs))` is strictly increasing under code-point order and has the elements of `xs` |
| Strings.SortedUnique | layers/messages.py:60-62 | two strictly sorted lists with the same elements are equal, so the key is canonical |
| Strings.Join | layers/messages.py:67 | `sep.join(xs)`: the parts in order with the separator between each two; its inverse is `Strings.SplitJoin` |
| Strings.SplitOn | src/callbacks/command.py:58 | `split("/")` gives at least one part and no part contains the separator |
| Strings.SplitJoin | src/callbacks/command.py:59 | splitting a join of separator-free parts gives the parts back |
| Strings.JoinSplit | src/callbacks/command.py:58-59 | joining the parts of a split with the separator gives the text back, so a split loses nothing |
| Strings.ReplaceSeparator | src/callbacks/command.py:117 | replacing the separator of a join is the join with the replacement |
| Strings.ReplaceAbsent | src/senders/telegram.py:22 | `replace` of a pattern that does not occur leaves the text unchanged |
| Strings.ReplaceLeading | src/senders/telegram.py:22 | `replace` removes a leading occurrence of the pattern and continues after it |
| Strings.Replace | src/senders/telegram.py:22 | `str.replace`: every non-overlapping occurrence, scanned from the left, is replaced; `Strings.ReplaceAbsent`, `Strings.ReplaceLeading` and `Strings.ReplaceSeparator` state its effect |
| Strings.ParseNatToString | src/callbacks/command.py:61 | `int(str(n)) == n` for every natural n |
| Strings.ParseInt | src/callbacks/command.py:61 | `int(s)`: an optional sign and ASCII decimal digits give their value; any other text without whitespace, underscores or non-ASCII digits is the `ValueError`, as none |
| Strings.NatToString | src/callbacks/command.py:16 | the decimal numeral of a number: non-empty and all digits, and `Strings.ParseNatToString` inverts it |
| Strings.NatToStringInjective | src/callbacks/command.py:16 | distinct numbers give distinct numerals, so fresh ids are distinct |
| Messages.GenerateIdApp | layers/messages.py:20-22 | the first space-separated field of an id is its application |
| Messages.GenerateIdFields | layers/messages.py:20-22 | an id built from space-free parts splits back into the application and the id |
| Messages.GenerateId | layers/messages.py:20-22 | `f"{app} {app_id}"`; `Messages.GenerateIdApp` and `Messages.GenerateIdFields` split it back |
| Messages.BumpEffect | layers/messages.py:43-55 | `set_seq` increments the channel's counter from 0 when it is absent, records the day and time, and leaves every other channel unchanged |
| Messages.Bump | layers/messages.py:43-55 | the counters after `set_seq` on a channel: its counter plus one, the day and the time; `Messages.BumpEffect` states its effect |
| Messages.AllocationsConsecutive | layers/messages.py:41-55 | successive messages of a channel get consecutive numbers following the counter |
| Messages.FreshKeyAllocations | layers/messages.py:41-55 | no two messages of a channel get the same number |
| Messages.SeqCounters.UpdateSeq | layers/messages.py:43-55 | returns the incremented counter and stores exactly that update |
| Messages.IncomingMessage.constructor | layers/messages.py:31-39 | the tags key is computed once from the text with the default `world`, and no number is assigned yet |
| Messages.IncomingMessage.SetSeq | layers/messages.py:41-55 | the message keeps the number its channel's counter now holds |
| Context.Handler.SetQuestion | src/callbacks/command.py:44 | `handler.set_question(q)`: the pending question is `q` |
| Quota.DebitCases | src/callbacks/text.py:13-50 | decrement when bottles > 0; otherwise refresh only the timestamp when it is older than 12 h, leaving 0 bottles; otherwise refuse, as for a missing record; refused iff neither condition holds |
| Quota.DebitBounds | src/callbacks/text.py:21-30 | a granted debit takes at most one bottle, never makes the count negative, keeps the balloons and stamps `now`; the bottles left to the handler are never negative |
| Quota.DrainThenRefuse | src/callbacks/text.py:13-50 | a user with b bottles sending b + 1 messages within twelve hours of its timestamp is granted the first b, refused the last, and ends with 0 bottles |
| Quota.SixthMessageRefused | src/callbacks/callbacks.py:15-22 | after `start`, five messages go through within twelve hours and the sixth is refused |
| Quota.RefreshRestartsClock | src/callbacks/text.py:35-48 | a refresh restarts the 12-hour window, so the next message in that window is refused |
| Quota.TryDebit | src/callbacks/text.py:13-50 | the two guarded updates of `remove_bottle` on one record, tried in order; `Quota.DebitCases` and `Quota.DebitBounds` state the cases |
| Quota.Users.DecrementBottle | src/callbacks/text.py:24-30 | the guarded decrement applies iff the record exists with bottles > 0, and returns the new count |
| Quota.Users.RefreshBottles | src/callbacks/text.py:35-43 | the guarded timestamp update applies iff the record exists with a timestamp older than 12 h |
| Quota.Users.Put | src/callbacks/callbacks.py:16-18 | `put_item` replaces the whole record |
| Quota.Users.AddBottle | src/callbacks/callbacks.py:25-29 | adds one bottle to an existing record; fails on a missing one |
| Quota.Users.AddBalloon | src/callbacks/command.py:75-79 | adds one balloon to an existing record; fails on a missing one |
| Quota.RemoveBottle | src/callbacks/text.py:13-50 | succeeds iff `TryDebit` does not refuse; `handler.bottles` and the users table are what that step says |
| TimedPairing.Unclaimed | src/handlers/base.py:52-57 | the times of the records of the channel that are earlier than the bound and not yet claimed |
| TimedPairing.Candidates | src/handlers/base.py:52-57 | the query lists exactly the claimable records, in strictly decreasing time order |
| TimedPairing.CandidatesHead | src/handlers/base.py:59-69 | the list is empty iff nothing is claimable; otherwise its head is the newest claimable record |
| TimedPairing.FirstUnset | src/handlers/base.py:71-83 | the index of the first listed record whose `sent_to` is unset; none iff all listed records are claimed |
| TimedPairing.StoreKeepsClaimable | src/handlers/base.py:44-57 | storing the new message at `now` does not change which earlier records are claimable |
| TimedPairing.Exchange | src/handlers/base.py:44-89 | store, query, then no candidate, same sender or deliver and claim the newest; `TimedPairing.ExchangeOutcome` and `TimedPairing.ExchangeClaimsAtMostOne` state its outcomes |
| TimedPairing.ExchangeOutcome | src/handlers/base.py:44-89 | no candidate iff nothing earlier is claimable; same sender iff the newest one is the sender's; otherwise the newest is delivered and claimed by the sender |
| TimedPairing.ExchangeStores | src/handlers/base.py:44-50 | the new message is stored under (tags, now) and is unclaimed |
| TimedPairing.ExchangeClaimsAtMostOne | src/handlers/base.py:71-83 | at most one earlier record changes, from unclaimed to claimed by the sender; no claimed record is overwritten |
| TimedPairing.DeliveredOnce | src/handlers/base.py:71-83 | a delivered record is never claimable again, whatever the later bound |
| TimedPairing.FirstCandidateUnset | src/handlers/base.py:71-83 | with no other writer, the loop claims the first candidate |
| TimedPairing.FirstUnsetIsFirst | src/handlers/base.py:71-83 | an unset record preceded only by claimed ones is the one the loop stops on |
| TimedPairing.TimedMessages.Put | src/handlers/base.py:44-50 | the whole record at (tags, datetime) is replaced by an unclaimed one |
| TimedPairing.TimedMessages.Query | src/handlers/base.py:52-57 | returns exactly `Candidates` of the current table |
| TimedPairing.TimedMessages.ClaimIfUnset | src/handlers/base.py:73-78 | succeeds iff `sent_to` was unset; then sets it, otherwise changes nothing |
| TimedPairing.TimedMessages.ClaimFirst | src/handlers/base.py:71-83 | claims the first unset listed record and stops there; if all fail it ends on the last one with the table unchanged |
| TimedPairing.Pair | src/handlers/base.py:44-89 | the outcome and the new table are those of `Exchange` on the old table |
| BaseHandlers.BaseHandler.Handle | src/handlers/base.py:32-91 | a hello is welcomed in Markdown with the table unchanged; any other message goes through `Exchange` under its tags at `now`; the status is always 200 |
| TelegramBot.Handle | src/telegram.py:37-102 | an update without a message or text is acknowledged and stores nothing; `/start` is welcomed and stores nothing; other texts go through `Exchange` keyed by `from.id`; always 200 |
| Callbacks.SendBackRoundTrip | src/callbacks/callbacks.py:121-126 | the send-back button of a delivered message names that message's owner when `sendbackbottle` reads it back |
| Callbacks.SendBackTarget | src/callbacks/callbacks.py:26 | `text.split("/")[1]`, and none when there is no second field; `Callbacks.SendBackRoundTrip` inverts it |
| Callbacks.Command | src/callbacks/callbacks.py:11-30 | `help` changes nothing; `start` writes a fresh record with 5 bottles; `sendbackbottle/<id>` adds one bottle to `<id>`, failing on a missing field or record; any other command gets no reply |
| Callbacks.Text | src/callbacks/callbacks.py:77-127 | a refused debit answers "no more bottle" and stores nothing; otherwise `Exchange` runs keyed by the message's tags and datetime and the reply carries the bottles left |
| Balloons.SetBackOnce | src/callbacks/command.py:62-73 | the first claim on an existing record credits its owner; every later one fails and changes nothing |
| Balloons.BalloonTable.Put | src/callbacks/text.py:73 | `put_item` replaces the record at its key |
| Balloons.BalloonTable.Get | src/callbacks/text.py:81-83 | returns the record when present, nothing otherwise |
| Balloons.BalloonTable.SetSentTo | src/callbacks/text.py:95-99 | overwrites `sent_to`, with no condition |
| Balloons.BalloonTable.SetBalloonBack | src/callbacks/command.py:63-69 | the conditional update and its result are those of `SetBack` |
| TextCallback.SeqExchangeCases | src/callbacks/text.py:71-99 | the message is stored at (tags, n); first iff n == 1; missing iff no predecessor; again iff the predecessor is the sender's; otherwise the predecessor gets `sent_to` and nothing else changes |
| TextCallback.SeqExchange | src/callbacks/text.py:71-99 | allocate the channel's next number, store at (tags, n), read (tags, n - 1) and claim it when it is someone else's; `TextCallback.SeqExchangeCases` and `TextCallback.SeqExchangeKeepsDense` state its outcomes |
| TextCallback.SeqExchangeKeepsDense | src/callbacks/text.py:71-99 | every exchange keeps `Dense`; under it the predecessor is never missing and was never delivered before |
| TextCallback.FreshChannelIsDense | layers/messages.py:43-45 | empty tables satisfy `Dense` |
| TextCallback.SetBackKeepsDense | src/callbacks/command.py:63-69 | setting `balloon_back` keeps `Dense` |
| TextCallback.PollMessage | src/callbacks/text.py:53-64 | one more consistent read of (tags, seq - 1) |
| TextCallback.Text | src/callbacks/text.py:67-111 | a refused debit answers "no more bottle" and touches neither table; otherwise the counter and messages tables and the reply are those of `SeqExchange` |
| Command.FreshId | src/callbacks/command.py:15-18 | the next alias id is not in use, and storing under it keeps every id a numeral below the counter |
| Command.AliasRoundTrip | src/callbacks/command.py:15-28 | a new alias resolves to its path, and every earlier alias still resolves to its own |
| Command.Resolve | src/callbacks/command.py:27-28 | a text starting with `:` is replaced by the path stored under the rest, none when there is none; any other text is kept; `Command.AliasRoundTrip` relates it to `dynamic` |
| Command.CallbackAliases.Dynamic | src/callbacks/command.py:15-18 | stores the path under a fresh id and returns `":" + id`, which resolves to the path |
| Command.CallbackAliases.Reverse | src/callbacks/command.py:21-23 | the stored path, or none |
| Command.UnquoteQuoteSpaces | src/callbacks/command.py:60 | `unquote_plus` gives back a tags key whose spaces were quoted as `+` |
| Command.Unquote | src/callbacks/command.py:60 | `unquote_plus`: `+` is a space and `%XX` the code point XX; `Command.UnquoteQuoteSpaces` inverts quoting |
| Command.Classify | src/callbacks/command.py:30-102 | the first branch whose test the text passes, in the order of the code, with the fields the branch splits off; `Command.ClassifyFreeBalloon`, `Command.ClassifyReplyToBalloon` and `Command.ClassifyReplyToConversation` state the split branches |
| Command.ClassifyFreeBalloon | src/callbacks/command.py:55-59 | `sendfreeballoon/<tags>/<seq>` and `sendbackballoon/<tags>/<seq>` reach the claim with their two fields |
| Command.ClassifyReplyToBalloon | src/callbacks/command.py:83-92 | `reply/<tags>/<seq>` reaches the balloon reply branch with its two fields |
| Command.ClassifyReplyToConversation | src/callbacks/command.py:83-97 | `reply/<id>` reaches the conversation reply branch with its id |
| Command.MarkedBalloonIsInert | src/callbacks/command.py:62-73 | once a balloon is marked, any number of further claims changes neither table |
| Command.CreditedAtMostOnce | src/callbacks/command.py:55-81 | however many claims are sent, only the balloon's owner gains, and by at most one balloon |
| Command.SecondClaimRefused | src/callbacks/command.py:70-72 | a claim right after a successful one is answered "already gave" and changes nothing |
| Command.FreeBalloonStep | src/callbacks/command.py:62-81 | the conditional `balloon_back` update, then one balloon for the owner; a balloon already back is answered "already gave", and a missing balloon or owner record fails; `Command.CreditedAtMostOnce` states its effect over many claims |
| Command.GiveBalloonBack | src/callbacks/command.py:62-81 | the conditional update, then the credit, as `FreeBalloonStep` says, including both failures |
| Command.AskReply | src/callbacks/command.py:83-100 | asks for a reply to the balloon's `sent_message_id` or the conversation's `replied_back`; fails when a lookup misses |
| Command.ReplyTarget | src/callbacks/command.py:86-97 | the balloon's `sent_message_id` or the conversation's `replied_back`; none when the seq is not a number or the record or attribute is missing |
| Command.Sink | src/callbacks/command.py:114 | one insertion step: the prefix stays sorted by decreasing count, the rest is unchanged, and the contents are permuted |
| Command.SortBySeqDescending | src/callbacks/command.py:114 | the array ends sorted by decreasing count and is a permutation of its input |
| Command.Trending | src/callbacks/command.py:102-114 | lists exactly the channels other than `world` whose last message is from the last seven days, each once with its count, busiest first |
| Command.TrendingLines | src/callbacks/command.py:116-118 | line i is `f"{i} - #..."` for the i-th channel |
| Command.TrendingLineShowsHashtags | src/callbacks/command.py:117 | the line of a channel shows each of its hashtags with its `#` |
| Command.Dispatch | src/callbacks/command.py:26-126 | an unknown alias fails and changes nothing; otherwise the branches in order: the help, welcome, new-balloon and reply questions, the claim, trending and the unknown-command echo, each with exactly the state it changes |
| TelegramSender.ChatIdRoundTrip | src/senders/telegram.py:22 | the chat id of the user id `"telegram <chat>"` is `<chat>` |
| TelegramSender.ChatId | src/senders/telegram.py:22 | the user id without `"telegram "`; `TelegramSender.ChatIdRoundTrip` inverts `generate_id` |
| TelegramSender.ReplyToMessageId | src/senders/telegram.py:23-27 | the third space-separated field of `reply_to`, none without `reply_to`, and the `IndexError` with fewer than three fields; `TelegramSender.SentIdRoundTrip` inverts the returned id |
| TelegramSender.SentIdRoundTrip | src/senders/telegram.py:69-74 | the returned id, used as `reply_to`, yields the sent `message_id` as its third field |
| TelegramSender.KeyForKept | src/senders/telegram.py:40-42 | storing another alias keeps every key built so far resolving to its payload |
| TelegramSender.Keyboard | src/senders/telegram.py:33-48 | one row per button, in order; a payload under 65 characters is kept, a longer one becomes an alias that resolves to it; existing aliases are kept, and the only new ones are one fresh alias per long payload, storing that payload |
| TelegramSender.MakeKey | src/senders/telegram.py:38-43 | the key of one button: its payload when under 65 characters, with the table unchanged; otherwise one fresh alias storing the payload |
| TelegramSender.SendMessage | src/senders/telegram.py:16-75 | a `reply_to` with fewer than three fields fails before any alias is stored; otherwise the chat id, text, preview flag, reply id, Markdown only when asked, the keyboard only with buttons, and the id `"telegram <chat> <message_id>"`; aliases are added only for the long payloads of the buttons, one each |
| MessengerSender.SendMessage | src/senders/messenger.py:15-71 | fails iff a `reply_to` has no second field; the recipient, a button template when buttons are given, exactly the text otherwise, and the id `"messenger <message_id>"` |
| MessengerSender.PostIgnoresMarkdownAndReplyTo | src/senders/messenger.py:22-51 | neither `markdown` nor `reply_to` changes what is posted |
| MessengerSender.RecipientRoundTrip | src/senders/messenger.py:21 | the recipient of the user id `"messenger <psid>"` is `<psid>` |
| MessengerSender.Recipient | src/senders/messenger.py:21 | the user id without `"messenger "`; `MessengerSender.RecipientRoundTrip` inverts `generate_id` |
| MessengerSender.SentIdFields | src/senders/messenger.py:66-71 | the returned id splits into `messenger` and the message id |

## Left out

- HTTP delivery, webhook verification and HMAC signatures, and JSON parsing of updates are left out. They are network I/O and foreign libraries. The response values a sender reads are parameters instead.
- Time is left out. `datetime.now` is a parameter. Timestamps are integers counting microseconds, the resolution of `isoformat()`. Their string order is their integer order: within the same UTC offset, an `isoformat()` string without a fraction sorts before one with a fraction in the same second, because `+` is below `.`. The ISO date of `last_message_day` is a day number.
- The backoff of `reverse` and `poll_message` is not modelled. With no other writer, a retried read returns what one read returns: `PollMessage` is one extra read, and `Reverse` gives up at once.
- Concurrent handlers are left out. Each conditional update is atomic, but other writers between calls are not modelled; that is why the claim loop's failure path is kept.
- Store errors other than a failed condition are left out, as are exceptions from missing attributes other than those modelled. Each modelled exception is the outcome `Failed`.
- `uuid4().hex` is replaced by the decimal numeral of a counter. This makes freshness provable; the 32-character length is not modelled.
- Command.Dispatch: when `reverse` finds nothing, the source sets the text to `None` and then fails on `None.startswith`. The model fails without changing the text.
- Command.GiveBalloonBack: an `update_item` on a missing (tags, seq) creates a stub record, because the condition `attribute_not_exists` holds. Its reply then fails on the missing `user_id`. The model fails and leaves the table unchanged.
- Command.Trending: the seven queries are gathered in any order. Python's sort is stable, but the order among equal counts is left unspecified.
- Command.Unquote decodes `+` and `%XX` as single code points only. `unquote_plus` decodes the escaped bytes as UTF-8 with errors replaced. The model therefore differs in two ways: a UTF-8 sequence of several `%XX` escapes is not decoded to one character, and a lone `%80` to `%FF` becomes U+0080 to U+00FF where `unquote_plus` gives U+FFFD.
- Strings.ParseInt accepts an optional sign and ASCII decimal digits only. `int()` also accepts surrounding whitespace, underscores between digits, and every other Unicode decimal digit (`int("３") == 3`, `int("٣") == 3`); the model rejects these. A `sendfreeballoon`, `sendbackballoon` or `reply` command whose seq uses such digits fails in the model where the source goes on to the lookup.
- The `raw` field of messages is not modelled, nor is the `message` dictionary the first generation stores. A stored record keeps only the sender, display name and text.
- The `messages_table` of src/callbacks/text.py and the `balloons_table` of src/callbacks/command.py are assumed to be one table keyed by (tags, seq), the `Balloons.BalloonTable`. The module that defines them is not part of this model. `TextCallback.SetBackKeepsDense` depends on this assumption.
- The buttons of the callbacks name their second field `command`, while the senders read `payload`; `Interface.Button` has one field for both.
- The `buttons` module is not part of this model. `Interface.TrendingButton` and `Interface.NewBalloonButton` stand for its two buttons, with their text and payload left unspecified.
- A new user record is assumed to be `models.User`'s defaults: 5 bottles, the current time, 0 balloons. That dataclass is not part of this model.
- Tags are not lower-cased; `Hashtags.DistinctHashtagsDistinctChannels` shows it.
- The `reply_message` methods of the platform handlers and the sender dispatch on the `user_id` prefix are not modelled. They are adapters over network calls.
- The text of the constant messages (`WELCOME`, `YOU_AGAIN` and so on) is not modelled; they are named constructors of `Context.Body`.
