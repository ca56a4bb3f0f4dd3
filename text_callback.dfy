/**
 * `text` of src/callbacks/text.py: the sequence-keyed exchange. After the bottle
 * debit, the message takes the next sequence number of its channel, is stored
 * under (tags, seq), and is paired with its predecessor (tags, seq - 1): the
 * predecessor's `sent_to` is overwritten with the sender unless both messages
 * are the sender's own.
 *
 * `Dense` is the invariant the two tables keep together: the records of a
 * channel are exactly the numbers 1..counter, and only records below the
 * counter have been delivered. Under it the predecessor is always there and was
 * never delivered, so the unconditional overwrite never replaces a reader.
 */
module TextCallback {

  import opened Optional
  import opened Messages
  import opened Context
  import opened Interface
  import opened Quota
  import opened Balloons
  import opened Callbacks

  ghost predicate Dense(counters: map<string, Counter>, rows: BalloonRows) {
    && (forall k :: k in rows ==> 1 <= k.1 <= SeqOf(counters, k.0))
    && (forall tags, s :: 1 <= s <= SeqOf(counters, tags) ==> (tags, s) in rows)
    && (forall k :: k in rows && rows[k].sentTo.Some? ==> k.1 < SeqOf(counters, k.0))
  }

  /** What the exchange found at (tags, seq - 1). */
  datatype SeqPairing = First | Again | Forward(prev: Balloon) | Missing

  /** Allocate, store, look up the predecessor, and claim it when it is someone
      else's. */
  function SeqExchange(counters: map<string, Counter>, rows: BalloonRows, tags: string, b: Balloon)
    : (SeqPairing, map<string, Counter>, BalloonRows)
  {
    var n := SeqOf(counters, tags) + 1;
    var counted := Bump(counters, tags, b.datetime);
    var stored := rows[(tags, n) := b];
    if n == 1 then (First, counted, stored)
    else if (tags, n - 1) !in stored then (Missing, counted, stored)
    else if stored[(tags, n - 1)].userId == b.userId then (Again, counted, stored)
    else
      var prev := stored[(tags, n - 1)];
      (Forward(prev), counted, stored[(tags, n - 1) := prev.(sentTo := Some(b.userId))])
  }

  /** The outcomes, stated on the tables as they were before the message arrived. */
  lemma SeqExchangeCases(counters: map<string, Counter>, rows: BalloonRows, tags: string, b: Balloon)
    ensures var (p, c, r) := SeqExchange(counters, rows, tags, b);
      var n := SeqOf(counters, tags) + 1;
      && c == Bump(counters, tags, b.datetime)
      && (tags, n) in r && r[(tags, n)] == b
      && (p.First? <==> n == 1)
      && (p.Missing? <==> n > 1 && (tags, n - 1) !in rows)
      && (p.Again? <==> n > 1 && (tags, n - 1) in rows && rows[(tags, n - 1)].userId == b.userId)
      && (p.Forward? ==>
            && n > 1 && (tags, n - 1) in rows
            && p.prev == rows[(tags, n - 1)] && p.prev.userId != b.userId
            && r == rows[(tags, n) := b][(tags, n - 1) := p.prev.(sentTo := Some(b.userId))])
      && (!p.Forward? ==> r == rows[(tags, n) := b])
  {
  }

  /** The exchange keeps `Dense`; under it the predecessor lookup never fails and
      the predecessor claimed was never delivered before. */
  lemma SeqExchangeKeepsDense(counters: map<string, Counter>, rows: BalloonRows, tags: string, b: Balloon)
    requires Dense(counters, rows)
    requires b.sentTo.None?
    ensures var (p, c, r) := SeqExchange(counters, rows, tags, b);
      && Dense(c, r)
      && !p.Missing?
      && (p.Forward? ==> p.prev.sentTo.None?)
  {
    var n := SeqOf(counters, tags) + 1;
    var c := Bump(counters, tags, b.datetime);
    var stored := rows[(tags, n) := b];
    assert SeqOf(c, tags) == n;
    assert forall t :: t != tags ==> SeqOf(c, t) == SeqOf(counters, t);
    assert Dense(c, stored) by {
      forall k | k in stored ensures 1 <= k.1 <= SeqOf(c, k.0) {
        if k != (tags, n) {
          assert k in rows;
        }
      }
      forall t, s | 1 <= s <= SeqOf(c, t) ensures (t, s) in stored {
        if t == tags && s == n {
        } else {
          assert (t, s) in rows;
        }
      }
      forall k | k in stored && stored[k].sentTo.Some? ensures k.1 < SeqOf(c, k.0) {
        assert k != (tags, n);
        assert k in rows;
      }
    }
    if n > 1 {
      assert (tags, n - 1) in rows;
      var prev := rows[(tags, n - 1)];
      assert prev.sentTo.None?;
      if prev.userId != b.userId {
        var r := stored[(tags, n - 1) := prev.(sentTo := Some(b.userId))];
        assert Dense(c, r) by {
          forall k | k in r && r[k].sentTo.Some? ensures k.1 < SeqOf(c, k.0) {
            if k != (tags, n - 1) {
              assert stored[k] == r[k];
            }
          }
        }
      }
    }
  }

  /** Empty tables are dense, so every reachable pair of tables is. */
  lemma FreshChannelIsDense()
    ensures Dense(map[], map[])
  {
  }

  /** `balloon_back` updates keep `Dense`: they touch no key and no `sent_to`. */
  lemma SetBackKeepsDense(counters: map<string, Counter>, rows: BalloonRows, key: (string, int))
    requires Dense(counters, rows)
    ensures Dense(counters, SetBack(rows, key).1)
  {
    var r := SetBack(rows, key).1;
    assert r.Keys == rows.Keys;
    forall k | k in r && r[k].sentTo.Some? ensures k.1 < SeqOf(counters, k.0) {
      assert rows[k].sentTo == r[k].sentTo;
    }
  }

  /** The reply for each outcome, with its buttons in the order the code lists them. */
  function SeqAnswer(p: SeqPairing, bottles: int): Outcome {
    match p
    case First => Replied(Reply(NoMessageEver, Some(bottles), [], false, false))
    case Again => Replied(Reply(YouAgain, Some(bottles), [], false, false))
    case Missing => Failed
    case Forward(prev) =>
      Replied(Reply(Forwarded(prev.senderDisplayName, prev.text), None,
                    [PostbackButton("⁉️ What does this mean?", "help"),
                     PostbackButton("💙 Send back bottle", SendBackPayload(prev.userId)),
                     PostbackButton("🍾 How much bottle do I have ?", "status")],
                    false, false))
  }

  /** The record stored for the handler's message. */
  function Record(m: IncomingMessage): Balloon
    reads m
  {
    Fresh(m.userId, m.senderDisplayName, m.text, m.datetime, m.replyTo)
  }

  /** `poll_message`: another consistent read of the predecessor. The retry schedule
      is not modelled; with no other writer the table reads the same. */
  method PollMessage(balloons: BalloonTable, tags: string, seqNo: int) returns (b: Option<Balloon>)
    ensures (tags, seqNo - 1) in balloons.rows ==> b == Some(balloons.rows[(tags, seqNo - 1)])
    ensures (tags, seqNo - 1) !in balloons.rows ==> b == None
  {
    b := balloons.Get((tags, seqNo - 1));
  }

  method Text(handler: Handler, users: Users, counters: SeqCounters, balloons: BalloonTable, now: int)
    returns (outcome: Outcome)
    modifies handler`bottles, handler.message`seqNo, users, counters, balloons
    ensures var d := TryDebit(Get(old(users.rows), handler.message.userId), now);
      && users.rows == Store(old(users.rows), handler.message.userId, d)
      && handler.bottles == Remaining(d)
      && (d.Refused? ==>
            && outcome == Replied(Say(NoMoreBottle))
            && counters.rows == old(counters.rows) && balloons.rows == old(balloons.rows)
            && handler.message.seqNo == old(handler.message.seqNo))
      && (!d.Refused? ==>
            var m := handler.message;
            var r := SeqExchange(old(counters.rows), old(balloons.rows), m.tags, Record(m));
            && handler.message.seqNo == Some(SeqOf(old(counters.rows), m.tags) + 1)
            && counters.rows == r.1 && balloons.rows == r.2
            && outcome == SeqAnswer(r.0, handler.bottles))
  {
    var ok := RemoveBottle(handler, users, now);
    if !ok {
      return Replied(Say(NoMoreBottle));
    }
    var m := handler.message;
    m.SetSeq(counters);
    var n := m.seqNo.value;
    balloons.Put((m.tags, n), Record(m));
    if n == 1 {
      return Replied(Reply(NoMessageEver, Some(handler.bottles), [], false, false));
    }
    var prev := balloons.Get((m.tags, n - 1));
    if prev.None? {
      prev := PollMessage(balloons, m.tags, n);
    }
    if prev.None? {
      return Failed;
    }
    var item := prev.value;
    if m.userId == item.userId {
      return Replied(Reply(YouAgain, Some(handler.bottles), [], false, false));
    }
    balloons.SetSentTo((m.tags, n - 1), m.userId);
    outcome := SeqAnswer(Forward(item), handler.bottles);
  }
}
