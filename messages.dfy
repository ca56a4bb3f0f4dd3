/**
 * layers/messages.py: message ids, the per-channel sequence counters kept in the
 * `balloons_seq_table` (one record per tags key), and the incoming message object
 * whose `tags` are derived on construction and whose `seq` is allocated by `set_seq`.
 * Timestamps are microseconds since the epoch, the resolution of `isoformat()`;
 * the date part of a timestamp is its day number.
 */
module Messages {

  import opened Optional
  import opened Strings
  import opened Hashtags

  /** `Message.generate_id(app, app_id)`: `f"{app} {app_id}"`. */
  function GenerateId(app: string, appId: string): string {
    app + " " + appId
  }

  /** The first space-separated field of an id is its application. */
  lemma GenerateIdApp(app: string, appId: string)
    requires ' ' !in app
    ensures SplitOn(GenerateId(app, appId), ' ')[0] == app
  {
    IndexOfAfter(app, ' ', appId);
    assert GenerateId(app, appId)[..|app|] == app;
  }

  /** An id built from space-free parts splits back into them. */
  lemma GenerateIdFields(app: string, appId: string)
    requires ' ' !in app && ' ' !in appId
    ensures SplitOn(GenerateId(app, appId), ' ') == [app, appId]
  {
    assert GenerateId(app, appId) == Join([app, appId], " ");
    SplitJoin([app, appId], ' ');
  }

  /** Timestamps count microseconds. */
  const MicrosPerDay: int := 24 * 60 * 60 * 1000000

  /** `datetime.fromisoformat(t).date()`, as a day number. */
  function Day(datetime: int): int {
    datetime / MicrosPerDay
  }

  /** A record of the counters table. */
  datatype Counter = Counter(seqNo: nat, lastMessageDay: int, lastMessage: int)

  /** `if_not_exists(seq, 0)`: the stored counter, 0 for a key never seen. */
  function SeqOf(rows: map<string, Counter>, tags: string): nat {
    if tags in rows then rows[tags].seqNo else 0
  }

  /** The table after the atomic
      `SET seq = if_not_exists(seq, 0) + 1, last_message_day = ..., last_message = ...`. */
  function Bump(rows: map<string, Counter>, tags: string, datetime: int): map<string, Counter> {
    rows[tags := Counter(SeqOf(rows, tags) + 1, Day(datetime), datetime)]
  }

  /** One allocation adds exactly one to the counter of its key, stamps the
      activity of that key, and leaves every other key as it was. */
  lemma BumpEffect(rows: map<string, Counter>, tags: string, datetime: int, other: string)
    requires other != tags
    ensures SeqOf(Bump(rows, tags, datetime), tags) == SeqOf(rows, tags) + 1
    ensures Bump(rows, tags, datetime)[tags].lastMessage == datetime
    ensures Bump(rows, tags, datetime)[tags].lastMessageDay == Day(datetime)
    ensures other in Bump(rows, tags, datetime) <==> other in rows
    ensures other in rows ==> Bump(rows, tags, datetime)[other] == rows[other]
  {
  }

  /** The numbers handed out by successive `set_seq` calls on one key, at the given times. */
  function Allocations(rows: map<string, Counter>, tags: string, times: seq<int>): seq<nat>
    decreases |times|
  {
    if times == [] then []
    else [SeqOf(rows, tags) + 1] + Allocations(Bump(rows, tags, times[0]), tags, times[1..])
  }

  /** n successive allocations on a key hand out the next n numbers, in order. */
  lemma {:induction false} AllocationsConsecutive(rows: map<string, Counter>, tags: string, times: seq<int>)
    ensures |Allocations(rows, tags, times)| == |times|
    ensures forall i :: 0 <= i < |times| ==> Allocations(rows, tags, times)[i] == SeqOf(rows, tags) + i + 1
    decreases |times|
  {
    if times != [] {
      var next := Bump(rows, tags, times[0]);
      AllocationsConsecutive(next, tags, times[1..]);
      assert SeqOf(next, tags) == SeqOf(rows, tags) + 1;
    }
  }

  /** On a key never seen, n allocations return 1, 2, ..., n: no repeats and no gaps. */
  lemma FreshKeyAllocations(rows: map<string, Counter>, tags: string, times: seq<int>)
    requires tags !in rows
    ensures |Allocations(rows, tags, times)| == |times|
    ensures forall i :: 0 <= i < |times| ==> Allocations(rows, tags, times)[i] == i + 1
    ensures forall i, j :: 0 <= i < j < |times| ==> Allocations(rows, tags, times)[i] != Allocations(rows, tags, times)[j]
  {
    AllocationsConsecutive(rows, tags, times);
  }

  /** The `balloons_seq_table`. */
  class SeqCounters {
    var rows: map<string, Counter>

    constructor ()
      ensures rows == map[]
    {
      rows := map[];
    }

    /** The conditional-free `update_item` with `ReturnValues="UPDATED_NEW"`. */
    method UpdateSeq(tags: string, datetime: int) returns (seqNo: nat)
      modifies this
      ensures seqNo == SeqOf(old(rows), tags) + 1
      ensures rows == Bump(old(rows), tags, datetime)
    {
      seqNo := SeqOf(rows, tags) + 1;
      rows := rows[tags := Counter(seqNo, Day(datetime), datetime)];
    }
  }

  /** `SentMessage`: an outgoing message, addressed to `userId` and answering the
      message whose id is `replyTo`, if any (`raw` is not modelled). */
  datatype SentMessage = SentMessage(id: Option<string>, userId: string, text: string, replyTo: Option<string>)

  /** `IncomingMessage`: the fields the core reads (`raw` is not modelled). */
  class IncomingMessage {
    var id: Option<string>
    const userId: string
    var text: string
    const datetime: int
    const senderDisplayName: string
    const replyTo: Option<string>
    var tags: string
    var seqNo: Option<nat>

    /** The dataclass constructor with `__post_init__`: the tags key is derived
        from the text once, with the default `world`. */
    constructor (id: Option<string>, userId: string, text: string, datetime: int,
                 senderDisplayName: string, replyTo: Option<string>)
      ensures this.id == id && this.userId == userId && this.text == text
      ensures this.datetime == datetime && this.senderDisplayName == senderDisplayName
      ensures this.replyTo == replyTo
      ensures tags == ExtractAndSortHashtags(text, DefaultTags)
      ensures seqNo == None
    {
      this.id := id;
      this.userId := userId;
      this.text := text;
      this.datetime := datetime;
      this.senderDisplayName := senderDisplayName;
      this.replyTo := replyTo;
      tags := ExtractAndSortHashtags(text, DefaultTags);
      seqNo := None;
    }

    /** `set_seq`: allocate the next number of this message's channel and keep it. */
    method SetSeq(counters: SeqCounters)
      modifies this`seqNo, counters
      ensures seqNo == Some(SeqOf(old(counters.rows), tags) + 1)
      ensures counters.rows == Bump(old(counters.rows), tags, datetime)
      ensures counters.rows[tags].seqNo == seqNo.value
    {
      var n := counters.UpdateSeq(tags, datetime);
      seqNo := Some(n);
    }
  }
}
