/**
 * src/callbacks/callbacks.py: the bottle callbacks of the second generation.
 * `command` answers `help`, `start` (a fresh user record) and
 * `sendbackbottle/<id>` (one bottle back to the user named); `text` spends a
 * bottle, then runs the timestamp-keyed exchange keyed by the message's own tags
 * and datetime, where a user is its `user_id` string. `remove_bottle` is the one
 * of module Quota; `generate_status` is the `status` part of a reply.
 */
module Callbacks {

  import opened Optional
  import opened Strings
  import opened Messages
  import opened Context
  import opened Interface
  import opened Quota
  import opened TimedPairing

  const SendBackCommand: string := "sendbackbottle"

  /** `text.split("/")[1]`: the user a `sendbackbottle` command names; there is
      none when the text has no `/`. */
  function SendBackTarget(text: string): Option<string> {
    var parts := SplitOn(text, '/');
    if |parts| >= 2 then Some(parts[1]) else None
  }

  /** The payload of the button offered with a delivered message. */
  function SendBackPayload(owner: string): string {
    SendBackCommand + "/" + owner
  }

  /** The button built for a message's owner issues a command that names that owner. */
  lemma SendBackRoundTrip(owner: string)
    requires '/' !in owner
    ensures StartsWith(SendBackPayload(owner), SendBackCommand)
    ensures SendBackTarget(SendBackPayload(owner)) == Some(owner)
  {
    assert SendBackPayload(owner) == Join([SendBackCommand, owner], "/");
    SplitJoin([SendBackCommand, owner], '/');
    assert SendBackPayload(owner)[..|SendBackCommand|] == SendBackCommand;
  }

  /** The reply for each outcome of the exchange, with the status line. */
  function TextAnswer(p: Pairing<string>, bottles: int): Reply {
    match p
    case NoCandidate => Reply(NoMessageEver, Some(bottles), [], false, false)
    case SameSender => Reply(YouAgain, Some(bottles), [], false, false)
    case Delivered(from) =>
      Reply(Forwarded(from.name, from.text), Some(bottles),
            [PostbackButton("💙 Send back bottle", SendBackPayload(from.sender)),
             PostbackButton("⁉️ What does this mean?", "help")],
            false, false)
  }

  /** `command`: the three commands of this generation; any other text gets no reply. */
  method Command(handler: Handler, users: Users, now: int) returns (outcome: Outcome)
    modifies handler`bottles, users
    ensures handler.message.text == "help" ==>
      && outcome == Replied(Say(BottlesHelp))
      && users.rows == old(users.rows) && handler.bottles == old(handler.bottles)
    ensures handler.message.text == "start" ==>
      && users.rows == old(users.rows)[handler.message.userId := NewUser(now)]
      && handler.bottles == InitialBottles
      && outcome == Replied(Reply(Welcome, Some(InitialBottles), [], true, false))
    ensures handler.message.text != "help" && handler.message.text != "start"
            && StartsWith(handler.message.text, SendBackCommand) ==>
      var target := SendBackTarget(handler.message.text);
      && handler.bottles == old(handler.bottles)
      && (target.Some? && target.value in old(users.rows) ==>
            && users.rows == old(users.rows)[target.value := old(users.rows)[target.value].(bottles := old(users.rows)[target.value].bottles + 1)]
            && outcome == Replied(Say(Plain("The bottle has been sent back! Thanks!"))))
      && (target.None? || target.value !in old(users.rows) ==>
            outcome == Failed && users.rows == old(users.rows))
    ensures handler.message.text != "help" && handler.message.text != "start"
            && !StartsWith(handler.message.text, SendBackCommand) ==>
      outcome == Silent && users.rows == old(users.rows) && handler.bottles == old(handler.bottles)
  {
    var text := handler.message.text;
    if text == "help" {
      return Replied(Say(BottlesHelp));
    }
    if text == "start" {
      users.Put(handler.message.userId, NewUser(now));
      handler.bottles := InitialBottles;
      return Replied(Reply(Welcome, Some(InitialBottles), [], true, false));
    }
    if StartsWith(text, SendBackCommand) {
      var target := SendBackTarget(text);
      if target.None? {
        return Failed;
      }
      var ok := users.AddBottle(target.value);
      if !ok {
        return Failed;
      }
      return Replied(Say(Plain("The bottle has been sent back! Thanks!")));
    }
    outcome := Silent;
  }

  /** `text`: a refused debit stores nothing; otherwise the message is exchanged
      under its tags and datetime and the reply carries the bottles left. */
  method Text(handler: Handler, users: Users, table: TimedMessages<string>, now: int) returns (reply: Reply)
    modifies handler`bottles, users, table
    ensures var d := TryDebit(Get(old(users.rows), handler.message.userId), now);
      && users.rows == Store(old(users.rows), handler.message.userId, d)
      && handler.bottles == Remaining(d)
      && (d.Refused? ==> reply == Say(NoMoreBottle) && table.rows == old(table.rows))
      && (!d.Refused? ==>
            var m := handler.message;
            var r := Exchange(old(table.rows), m.tags, m.datetime, Posted(m.userId, m.senderDisplayName, m.text));
            table.rows == r.1 && reply == TextAnswer(r.0, handler.bottles))
  {
    var ok := RemoveBottle(handler, users, now);
    if !ok {
      return Say(NoMoreBottle);
    }
    var m := handler.message;
    var p := Pair(table, m.tags, m.datetime, Posted(m.userId, m.senderDisplayName, m.text));
    reply := TextAnswer(p, handler.bottles);
  }
}
