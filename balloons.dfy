/**
 * The sequence-keyed messages table of the second generation: `messages_table` of
 * src/callbacks/text.py and `balloons_table` of src/callbacks/command.py, keyed by
 * (tags, seq). A record is the stored `IncomingMessage` plus the attributes later
 * updates set on it: `sent_to`, `balloon_back` and `sent_message_id`.
 */
module Balloons {

  import opened Optional

  datatype Balloon = Balloon(
    userId: string,
    senderDisplayName: string,
    text: string,
    datetime: int,
    replyTo: Option<string>,
    sentTo: Option<string>,
    balloonBack: bool,
    sentMessageId: Option<string>)

  type BalloonRows = map<(string, int), Balloon>

  /** The record `put_item(asddbdict(message))` writes: no attribute set by a
      later update is present. */
  function Fresh(userId: string, senderDisplayName: string, text: string, datetime: int,
                 replyTo: Option<string>): Balloon {
    Balloon(userId, senderDisplayName, text, datetime, replyTo, None, false, None)
  }

  /** What the conditional `SET balloon_back = true` yields: the owner of the
      record, or a failed condition, or no record at all (then the update
      returns no `user_id`). */
  datatype BackResult = Credited(owner: string) | AlreadyBack | NoRecord

  function SetBack(rows: BalloonRows, key: (string, int)): (BackResult, BalloonRows) {
    if key !in rows then (NoRecord, rows)
    else if rows[key].balloonBack then (AlreadyBack, rows)
    else (Credited(rows[key].userId), rows[key := rows[key].(balloonBack := true)])
  }

  /** `balloon_back` is set at most once per record: a second attempt on the same
      key fails and changes nothing. */
  lemma SetBackOnce(rows: BalloonRows, key: (string, int))
    ensures SetBack(rows, key).0.Credited? ==>
      && key in rows && !rows[key].balloonBack
      && SetBack(rows, key).0.owner == rows[key].userId
      && SetBack(SetBack(rows, key).1, key) == (AlreadyBack, SetBack(rows, key).1)
    ensures !SetBack(rows, key).0.Credited? ==> SetBack(rows, key).1 == rows
  {
  }

  class BalloonTable {
    var rows: BalloonRows

    constructor ()
      ensures rows == map[]
    {
      rows := map[];
    }

    /** `put_item`: the whole record is replaced. */
    method Put(key: (string, int), b: Balloon)
      modifies this
      ensures rows == old(rows)[key := b]
    {
      rows := rows[key := b];
    }

    /** `get_item`: the record, or no `Item` in the response. */
    method Get(key: (string, int)) returns (b: Option<Balloon>)
      ensures key in rows ==> b == Some(rows[key])
      ensures key !in rows ==> b == None
    {
      b := if key in rows then Some(rows[key]) else None;
    }

    /** The unconditional `SET sent_to = :sent_to` on a record just read. */
    method SetSentTo(key: (string, int), reader: string)
      requires key in rows
      modifies this
      ensures rows == old(rows)[key := old(rows)[key].(sentTo := Some(reader))]
    {
      rows := rows[key := rows[key].(sentTo := Some(reader))];
    }

    /** `SET balloon_back = :1` under `attribute_not_exists(balloon_back)`, with
        `ReturnValues="ALL_NEW"`. */
    method SetBalloonBack(key: (string, int)) returns (r: BackResult)
      modifies this
      ensures (r, rows) == SetBack(old(rows), key)
    {
      if key !in rows {
        return NoRecord;
      }
      if rows[key].balloonBack {
        return AlreadyBack;
      }
      r := Credited(rows[key].userId);
      rows := rows[key := rows[key].(balloonBack := true)];
    }
  }
}
