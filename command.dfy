/**
 * src/callbacks/command.py: the balloon commands.
 *
 * - `dynamic` / `reverse`: the callbacks table maps a fresh id to a long command
 *   path; a command `":" + id` is replaced by its path before dispatch.
 * - `command`: `help`, `start`, `letsgo`, `new_balloon`, the free-balloon claim
 *   `sendfreeballoon|sendbackballoon/<tags>/<seq>`, the reply targets
 *   `reply/<tags>/<seq>` and `reply/<id>`, `trending`, and the unknown-command echo.
 *
 * The fresh ids of `uuid4` are the decimal numerals of a counter, so freshness is
 * proved rather than assumed. `unquote_plus` decodes `+` and `%XX` only.
 */
module Command {

  import opened Optional
  import opened Strings
  import opened Messages
  import opened Context
  import opened Interface
  import opened Quota
  import opened Balloons

  // ---------------------------------------------------------------------------
  // The callbacks table

  function Lookup(rows: map<string, string>, id: string): Option<string> {
    if id in rows then Some(rows[id]) else None
  }

  /** Every id handed out so far is the numeral of a number below `issued`. */
  ghost predicate Issued(rows: map<string, string>, issued: nat) {
    forall k :: k in rows ==> ParseInt(k).Some? && 0 <= ParseInt(k).value < issued
  }

  /** The next id is not in use, and storing under it keeps the table issued. */
  lemma FreshId(rows: map<string, string>, issued: nat, path: string)
    requires Issued(rows, issued)
    ensures NatToString(issued) !in rows
    ensures Issued(rows[NatToString(issued) := path], issued + 1)
  {
    ParseNatToString(issued);
  }

  /** The text dispatched for a command: an alias is replaced by its path; an
      unknown alias has none (`reverse` gives up and returns `None`). */
  function Resolve(rows: map<string, string>, text: string): Option<string> {
    if StartsWith(text, ":") then Lookup(rows, text[1..]) else Some(text)
  }

  /** An alias made by `dynamic` resolves to its path, and every alias made
      before it still resolves to its own. */
  lemma AliasRoundTrip(rows: map<string, string>, issued: nat, path: string, text: string)
    requires Issued(rows, issued)
    ensures Resolve(rows[NatToString(issued) := path], ":" + NatToString(issued)) == Some(path)
    ensures Resolve(rows, text).Some? && StartsWith(text, ":") ==>
      Resolve(rows[NatToString(issued) := path], text) == Resolve(rows, text)
  {
    FreshId(rows, issued, path);
    assert (":" + NatToString(issued))[1..] == NatToString(issued);
  }

  class CallbackAliases {
    var rows: map<string, string>
    var issued: nat

    ghost predicate Valid()
      reads this
    {
      Issued(rows, issued)
    }

    constructor ()
      ensures rows == map[] && issued == 0 && Valid()
    {
      rows := map[];
      issued := 0;
    }

    /** `dynamic`: store the path under a fresh id and return `":" + id`. */
    method Dynamic(path: string) returns (alias: string)
      requires Valid()
      modifies this
      ensures Valid()
      ensures var id := NatToString(old(issued));
        && alias == ":" + id
        && id !in old(rows)
        && rows == old(rows)[id := path]
        && issued == old(issued) + 1
      ensures Resolve(rows, alias) == Some(path)
    {
      var id := NatToString(issued);
      FreshId(rows, issued, path);
      AliasRoundTrip(rows, issued, path, "");
      rows := rows[id := path];
      issued := issued + 1;
      alias := ":" + id;
    }

    /** `reverse`: the stored path, or `None` once the retries give up. */
    method Reverse(id: string) returns (path: Option<string>)
      ensures path == Lookup(rows, id)
    {
      path := Lookup(rows, id);
    }
  }

  // ---------------------------------------------------------------------------
  // unquote_plus

  function HexValue(c: char): Option<nat> {
    if '0' <= c <= '9' then Some(c as nat - '0' as nat)
    else if 'a' <= c <= 'f' then Some(c as nat - 'a' as nat + 10)
    else if 'A' <= c <= 'F' then Some(c as nat - 'A' as nat + 10)
    else None
  }

  /** `unquote_plus`: `+` is a space and `%XX` the code point XX; anything else
      is kept. */
  function Unquote(s: string): string
    decreases |s|
  {
    if s == [] then []
    else if s[0] == '+' then " " + Unquote(s[1..])
    else if s[0] == '%' && |s| >= 3 && HexValue(s[1]).Some? && HexValue(s[2]).Some? then
      [(16 * HexValue(s[1]).value + HexValue(s[2]).value) as char] + Unquote(s[3..])
    else [s[0]] + Unquote(s[1..])
  }

  /** The `quote_plus` of a text without `+` or `%`: spaces become `+`. */
  function QuoteSpaces(s: string): (q: string)
    ensures |q| == |s|
    ensures forall i :: 0 <= i < |s| ==> q[i] == (if s[i] == ' ' then '+' else s[i])
  {
    if s == [] then [] else [if s[0] == ' ' then '+' else s[0]] + QuoteSpaces(s[1..])
  }

  /** Unquoting gives back a tags key quoted with `+` for its spaces. */
  lemma {:induction false} UnquoteQuoteSpaces(s: string)
    requires '+' !in s && '%' !in s
    ensures '/' !in s ==> '/' !in QuoteSpaces(s)
    ensures Unquote(QuoteSpaces(s)) == s
  {
    if s != [] {
      UnquoteQuoteSpaces(s[1..]);
      var q := QuoteSpaces(s);
      assert q[1..] == QuoteSpaces(s[1..]);
      assert s == [s[0]] + s[1..];
    }
  }

  // ---------------------------------------------------------------------------
  // Dispatch

  /** The branch of `command` a text takes, in the order the code tests them. */
  datatype Kind =
    | HelpCommand
    | StartCommand
    | LetsGo
    | NewBalloon
    | FreeBalloon(tagsPart: string, seqPart: string)
    | ReplyToBalloon(tagsPart: string, seqPart: string)
    | ReplyToConversation(replyId: string)
    | TrendingCommand
    | Unknown

  function Classify(text: string): Kind {
    var parts := SplitOn(text, '/');
    if text == "help" then HelpCommand
    else if text == "start" then StartCommand
    else if text == "letsgo" then LetsGo
    else if text == "new_balloon" then NewBalloon
    else if (StartsWith(text, "sendfreeballoon") || StartsWith(text, "sendbackballoon")) && |parts| == 3 then
      FreeBalloon(parts[1], parts[2])
    else if StartsWith(text, "reply") && |parts| == 3 then ReplyToBalloon(parts[1], parts[2])
    else if StartsWith(text, "reply") && |parts| == 2 then ReplyToConversation(parts[1])
    else if StartsWith(text, "trending") then TrendingCommand
    else Unknown
  }

  /** A command `base/<a>/<b>` built from slash-free parts splits back into them. */
  lemma ThreeParts(base: string, a: string, b: string)
    requires '/' !in base && '/' !in a && '/' !in b
    ensures SplitOn(base + "/" + a + "/" + b, '/') == [base, a, b]
    ensures StartsWith(base + "/" + a + "/" + b, base)
  {
    var text := base + "/" + a + "/" + b;
    assert [base, a, b][1..] == [a, b];
    assert Join([a, b], "/") == a + "/" + b;
    assert text == Join([base, a, b], "/");
    SplitJoin([base, a, b], '/');
    assert text[..|base|] == base;
  }

  /** The free-balloon payloads reach the claim branch with their two fields. */
  lemma ClassifyFreeBalloon(base: string, a: string, b: string)
    requires base == "sendfreeballoon" || base == "sendbackballoon"
    requires '/' !in a && '/' !in b
    ensures Classify(base + "/" + a + "/" + b) == FreeBalloon(a, b)
  {
    ThreeParts(base, a, b);
    var text := base + "/" + a + "/" + b;
    assert text[|base|] == '/';
  }

  /** A text that starts with `reply/` is none of the fixed commands and does not
      start with a free-balloon command. */
  lemma ReplyIsNoOtherCommand(text: string)
    requires StartsWith(text, "reply/")
    ensures StartsWith(text, "reply")
    ensures text != "help" && text != "start" && text != "letsgo" && text != "new_balloon"
    ensures !StartsWith(text, "sendfreeballoon") && !StartsWith(text, "sendbackballoon")
  {
    assert text[..6] == "reply/";
    assert text[0] == 'r' && text[5] == '/';
    assert text[..5] == "reply";
  }

  /** `reply/<tags>/<seq>` reaches the balloon reply branch with its two fields. */
  lemma ClassifyReplyToBalloon(a: string, b: string)
    requires '/' !in a && '/' !in b
    ensures Classify("reply/" + a + "/" + b) == ReplyToBalloon(a, b)
  {
    var text := "reply/" + a + "/" + b;
    assert text == "reply" + "/" + a + "/" + b;
    ThreeParts("reply", a, b);
    assert text[..6] == "reply/";
    ReplyIsNoOtherCommand(text);
  }

  /** `reply/<id>` reaches the conversation reply branch with its id. */
  lemma ClassifyReplyToConversation(a: string)
    requires '/' !in a
    ensures Classify("reply/" + a) == ReplyToConversation(a)
  {
    var text := "reply/" + a;
    assert [a] == ["reply", a][1..];
    assert text == Join(["reply", a], "/");
    SplitJoin(["reply", a], '/');
    assert text[..6] == "reply/";
    ReplyIsNoOtherCommand(text);
  }

  const AlreadyGave: string := "You have already gave a free balloon."

  /** The question both `letsgo` and `new_balloon` set. */
  const NewBalloonQuestion: Question := Question("new_balloon", None)

  /** The outcome of the free-balloon claim on (tags, seq): mark the balloon as
      given back, then add one balloon to its owner. */
  function FreeBalloonStep(balloons: BalloonRows, users: map<string, User>, key: (string, int))
    : (Outcome, BalloonRows, map<string, User>)
  {
    var (r, marked) := SetBack(balloons, key);
    match r
    case NoRecord => (Failed, marked, users)
    case AlreadyBack => (Replied(Say(Plain(AlreadyGave))), marked, users)
    case Credited(owner) =>
      if owner in users then
        (Replied(Say(Plain("The balloon has been sent back! Thanks!"))), marked,
         users[owner := users[owner].(balloons := users[owner].balloons + 1)])
      else (Failed, marked, users)
  }

  /** The claim repeated n times on the same balloon. */
  function RepeatFreeBalloon(balloons: BalloonRows, users: map<string, User>, key: (string, int), n: nat)
    : (BalloonRows, map<string, User>)
    decreases n
  {
    if n == 0 then (balloons, users)
    else
      var (_, b, u) := FreeBalloonStep(balloons, users, key);
      RepeatFreeBalloon(b, u, key, n - 1)
  }

  /** Once a balloon is marked, further claims change nothing. */
  lemma {:induction false} MarkedBalloonIsInert(balloons: BalloonRows, users: map<string, User>, key: (string, int), n: nat)
    requires key in balloons && balloons[key].balloonBack
    ensures RepeatFreeBalloon(balloons, users, key, n) == (balloons, users)
    decreases n
  {
    if n > 0 {
      MarkedBalloonIsInert(balloons, users, key, n - 1);
    }
  }

  /** However often the claim is sent, its owner's balloon count grows by at most
      one, nobody else's changes, and no bottle count changes. */
  lemma {:induction false} CreditedAtMostOnce(balloons: BalloonRows, users: map<string, User>, key: (string, int), n: nat)
    ensures var u := RepeatFreeBalloon(balloons, users, key, n).1;
      && u.Keys == users.Keys
      && (forall id :: id in users ==>
            u[id] == users[id] || u[id] == users[id].(balloons := users[id].balloons + 1))
      && (forall id :: id in users && u[id] != users[id] ==> key in balloons && id == balloons[key].userId)
    decreases n
  {
    if n > 0 {
      var (o, b, u) := FreeBalloonStep(balloons, users, key);
      var (r, marked) := SetBack(balloons, key);
      if r.Credited? {
        assert key in marked && marked[key].balloonBack;
        MarkedBalloonIsInert(b, u, key, n - 1);
      } else {
        CreditedAtMostOnce(balloons, users, key, n - 1);
      }
    }
  }

  /** A second claim on the same balloon is answered "already gave" and changes
      neither table. */
  lemma SecondClaimRefused(balloons: BalloonRows, users: map<string, User>, key: (string, int))
    requires FreeBalloonStep(balloons, users, key).0.Replied?
    ensures var (_, b, u) := FreeBalloonStep(balloons, users, key);
      FreeBalloonStep(b, u, key) == (Replied(Say(Plain(AlreadyGave))), b, u)
  {
  }

  /** The `reply_to` a reply command designates: the balloon's `sent_message_id`, or
      the conversation's `replied_back`; none when a lookup misses. */
  function ReplyTarget(balloons: BalloonRows, conversations: map<string, Option<string>>, k: Kind): Option<string>
    requires k.ReplyToBalloon? || k.ReplyToConversation?
  {
    if k.ReplyToBalloon? then
      match ParseInt(k.seqPart)
      case None => None
      case Some(s) =>
        var key := (Unquote(k.tagsPart), s);
        if key in balloons then balloons[key].sentMessageId else None
    else if k.replyId in conversations then conversations[k.replyId]
    else None
  }

  // ---------------------------------------------------------------------------
  // Trending

  datatype Activity = Activity(tags: string, seqNo: nat)

  /** The keys of the seven day queries, `world` left out. */
  function Recent(rows: map<string, Counter>, today: int): (r: set<string>)
    ensures forall t :: t in r ==> t in rows
  {
    set t | t in rows && today - 6 <= rows[t].lastMessageDay <= today && t != "world"
  }

  predicate NonIncreasing(xs: seq<Activity>) {
    forall i, j :: 0 <= i < j < |xs| ==> xs[i].seqNo >= xs[j].seqNo
  }

  /** `ranked` lists each recent channel once, with its counter, busiest first. */
  ghost predicate Ranks(ranked: seq<Activity>, rows: map<string, Counter>, today: int) {
    && NonIncreasing(ranked)
    && |ranked| == |Recent(rows, today)|
    && (forall a :: a in ranked <==> a.tags in Recent(rows, today) && a.seqNo == rows[a.tags].seqNo)
  }

  method Swap(a: array<Activity>, j: int)
    requires 0 < j < a.Length
    modifies a
    ensures a[..] == old(a[..])[j - 1 := old(a[j])][j := old(a[j - 1])]
    ensures multiset(a[..]) == multiset(old(a[..]))
  {
    a[j - 1], a[j] := a[j], a[j - 1];
  }

  /** Move a[i] left past the records before it with a smaller counter. */
  method Sink(a: array<Activity>, i: int)
    requires 0 <= i < a.Length
    requires NonIncreasing(a[..i])
    modifies a
    ensures NonIncreasing(a[..i + 1])
    ensures a[i + 1..] == old(a[i + 1..])
    ensures multiset(a[..]) == multiset(old(a[..]))
  {
    var j := i;
    while j > 0 && a[j - 1].seqNo < a[j].seqNo
      invariant 0 <= j <= i
      invariant a[i + 1..] == old(a[i + 1..])
      invariant multiset(a[..]) == multiset(old(a[..]))
      invariant forall p, q :: 0 <= p < q <= i && p != j && q != j ==> a[p].seqNo >= a[q].seqNo
      invariant forall q :: j < q <= i ==> a[j].seqNo > a[q].seqNo
    {
      Swap(a, j);
      j := j - 1;
    }
  }

  /** `items.sort(key=lambda item: item["seq"], reverse=True)`. */
  method SortBySeqDescending(a: array<Activity>)
    modifies a
    ensures NonIncreasing(a[..])
    ensures multiset(a[..]) == multiset(old(a[..]))
  {
    var i := 0;
    while i < a.Length
      invariant 0 <= i <= a.Length
      invariant NonIncreasing(a[..i])
      invariant multiset(a[..]) == multiset(old(a[..]))
    {
      Sink(a, i);
      i := i + 1;
    }
    assert a[..a.Length] == a[..];
  }

  /** The seven queries on `last_message_day`, gathered in the order the store
      returns them (any order), then sorted. */
  method Trending(counters: SeqCounters, today: int) returns (ranked: seq<Activity>)
    ensures Ranks(ranked, counters.rows, today)
  {
    var rows := counters.rows;
    var keys := Recent(rows, today);
    var items: seq<Activity> := [];
    var rest := keys;
    while rest != {}
      invariant rest <= keys
      invariant forall a :: a in items <==> a.tags in keys - rest && a.seqNo == rows[a.tags].seqNo
      invariant |items| + |rest| == |keys|
      decreases |rest|
    {
      var t :| t in rest;
      items := items + [Activity(t, rows[t].seqNo)];
      rest := rest - {t};
    }
    var a := new Activity[|items|](i requires 0 <= i < |items| => items[i]);
    assert a[..] == items;
    SortBySeqDescending(a);
    ranked := a[..];
    assert forall x :: x in ranked <==> x in multiset(ranked);
    assert forall x :: x in items <==> x in multiset(items);
  }

  /** Line c of the listing: `f"{c} - #{tags.replace(' ', ' #')}"`. */
  function TrendingLine(c: nat, a: Activity): string {
    NatToString(c) + " - #" + Replace(a.tags, " ", " #")
  }

  function TrendingLines(items: seq<Activity>, first: nat): (lines: seq<string>)
    ensures |lines| == |items|
    ensures forall i :: 0 <= i < |items| ==> lines[i] == TrendingLine(first + i, items[i])
    decreases |items|
  {
    if items == [] then [] else [TrendingLine(first, items[0])] + TrendingLines(items[1..], first + 1)
  }

  function TrendingText(ranked: seq<Activity>): string {
    "Here are the trending hashtags:\n" + Join(TrendingLines(ranked, 0), "\n")
  }

  /** A channel key joins its hashtags with spaces; its line shows each of them
      with its `#`. */
  lemma TrendingLineShowsHashtags(c: nat, tags: seq<string>, n: nat)
    requires forall t :: t in tags ==> ' ' !in t
    ensures TrendingLine(c, Activity(Join(tags, " "), n)) == NatToString(c) + " - #" + Join(tags, " #")
  {
    ReplaceSeparator(tags, ' ', " #");
  }

  // ---------------------------------------------------------------------------
  // command

    /** The claim branch once the key is parsed: the conditional update, then one
      balloon more for the owner. */
  method GiveBalloonBack(balloons: BalloonTable, users: Users, key: (string, int)) returns (outcome: Outcome)
    modifies balloons, users
    ensures (outcome, balloons.rows, users.rows) == FreeBalloonStep(old(balloons.rows), old(users.rows), key)
  {
    var r := balloons.SetBalloonBack(key);
    if r.NoRecord? {
      return Failed;
    }
    if r.AlreadyBack? {
      return Replied(Say(Plain(AlreadyGave)));
    }
    var ok := users.AddBalloon(r.owner);
    if !ok {
      return Failed;
    }
    outcome := Replied(Say(Plain("The balloon has been sent back! Thanks!")));
  }

  /** The two reply branches: look up the message to answer and ask for the reply. */
  method AskReply(handler: Handler, balloons: BalloonTable, conversations: map<string, Option<string>>, k: Kind)
    returns (outcome: Outcome)
    requires k.ReplyToBalloon? || k.ReplyToConversation?
    modifies handler`question
    ensures var target := ReplyTarget(balloons.rows, conversations, k);
      && (target.None? ==> outcome == Failed && handler.question == old(handler.question))
      && (target.Some? ==>
            && handler.question == Some(Question("reply", target))
            && outcome == Replied(Say(Plain("Type your reply :"))))
  {
    var target: Option<string> := None;
    if k.ReplyToBalloon? {
      var s := ParseInt(k.seqPart);
      if s.Some? {
        var item := balloons.Get((Unquote(k.tagsPart), s.value));
        if item.Some? {
          target := item.value.sentMessageId;
        }
      }
    } else if k.replyId in conversations {
      target := conversations[k.replyId];
    }
    if target.None? {
      return Failed;
    }
    handler.SetQuestion(Question("reply", target));
    outcome := Replied(Say(Plain("Type your reply :")));
  }

  /** `command`: resolve an alias, then take the first branch the text matches. */
  method Dispatch(handler: Handler, aliases: CallbackAliases, balloons: BalloonTable, users: Users,
                  conversations: map<string, Option<string>>, counters: SeqCounters, today: int)
    returns (outcome: Outcome)
    modifies handler.message`text, handler`question, balloons, users
    ensures Resolve(aliases.rows, old(handler.message.text)).None? ==>
      && outcome == Failed
      && handler.message.text == old(handler.message.text)
      && handler.question == old(handler.question)
      && balloons.rows == old(balloons.rows) && users.rows == old(users.rows)
    ensures Resolve(aliases.rows, old(handler.message.text)).Some? ==>
      var text := Resolve(aliases.rows, old(handler.message.text)).value;
      var k := Classify(text);
      && handler.message.text == text
      && (!k.FreeBalloon? ==> balloons.rows == old(balloons.rows) && users.rows == old(users.rows))
      && (!(k.LetsGo? || k.NewBalloon? || k.ReplyToBalloon? || k.ReplyToConversation?) ==>
            handler.question == old(handler.question))
      && (k.HelpCommand? ==> outcome == Replied(Say(BalloonsHelp)))
      && (k.StartCommand? ==>
            outcome == Replied(Reply(BalloonsWelcome, None,
                                     [PostbackButton("📝🎈☁️ Write my first message", "letsgo"), TrendingButton],
                                     true, false)))
      && (k.LetsGo? ==>
            && handler.question == Some(NewBalloonQuestion)
            && outcome == Replied(Say(Plain("Ok! Enter your first message. Remember you can use hashtags."))))
      && (k.NewBalloon? ==>
            && handler.question == Some(NewBalloonQuestion)
            && outcome == Replied(Say(Plain("Ok! Enter your new message. Remember you can use hashtags."))))
      && (k.FreeBalloon? ==>
            && handler.question == old(handler.question)
            && (ParseInt(k.seqPart).None? ==>
                  outcome == Failed && balloons.rows == old(balloons.rows) && users.rows == old(users.rows))
            && (ParseInt(k.seqPart).Some? ==>
                  (outcome, balloons.rows, users.rows)
                  == FreeBalloonStep(old(balloons.rows), old(users.rows), (Unquote(k.tagsPart), ParseInt(k.seqPart).value))))
      && (k.ReplyToBalloon? || k.ReplyToConversation? ==>
            var target := ReplyTarget(old(balloons.rows), conversations, k);
            && (target.None? ==> outcome == Failed && handler.question == old(handler.question))
            && (target.Some? ==>
                  && handler.question == Some(Question("reply", target))
                  && outcome == Replied(Say(Plain("Type your reply :")))))
      && (k.TrendingCommand? ==>
            exists ranked ::
              && Ranks(ranked, counters.rows, today)
              && outcome == Replied(Reply(Plain(TrendingText(ranked)), None, [NewBalloonButton], false, false)))
      && (k.Unknown? ==>
            outcome == Replied(Reply(Plain("Unkown command\n\n`" + text + "`"), None, [], true, false)))
  {
    var message := handler.message;
    if StartsWith(message.text, ":") {
      var path := aliases.Reverse(message.text[1..]);
      if path.None? {
        return Failed;
      }
      message.text := path.value;
    }
    var text := message.text;
    var k := Classify(text);
    match k {
      case HelpCommand =>
        outcome := Replied(Say(BalloonsHelp));
      case StartCommand =>
        outcome := Replied(Reply(BalloonsWelcome, None,
                                 [PostbackButton("📝🎈☁️ Write my first message", "letsgo"), TrendingButton],
                                 true, false));
      case LetsGo =>
        handler.SetQuestion(NewBalloonQuestion);
        outcome := Replied(Say(Plain("Ok! Enter your first message. Remember you can use hashtags.")));
      case NewBalloon =>
        handler.SetQuestion(NewBalloonQuestion);
        outcome := Replied(Say(Plain("Ok! Enter your new message. Remember you can use hashtags.")));
      case FreeBalloon(tagsPart, seqPart) =>
        var s := ParseInt(seqPart);
        if s.None? {
          return Failed;
        }
        outcome := GiveBalloonBack(balloons, users, (Unquote(tagsPart), s.value));
      case ReplyToBalloon(tagsPart, seqPart) =>
        outcome := AskReply(handler, balloons, conversations, k);
      case ReplyToConversation(replyId) =>
        outcome := AskReply(handler, balloons, conversations, k);
      case TrendingCommand =>
        var ranked := Trending(counters, today);
        outcome := Replied(Reply(Plain(TrendingText(ranked)), None, [NewBalloonButton], false, false));
      case Unknown =>
        outcome := Replied(Reply(Plain("Unkown command\n\n`" + text + "`"), None, [], true, false));
    }
  }
}
