/**
 * The timestamp-keyed pairing shared by `BaseHandler.handle` (src/handlers/base.py),
 * `TelegramHandler.handle` (src/telegram.py) and the callbacks' `text`
 * (src/callbacks/callbacks.py): the messages table is keyed by (tags, datetime);
 * a new message is stored, then the unclaimed messages of the same channel posted
 * strictly earlier are queried newest first, and the first of them whose `sent_to`
 * is still unset is claimed for the sender.
 *
 * The three callers differ only in what identifies a user (`U`) and in the record
 * stored; `Exchange` is the pure specification of this sequence of table steps.
 */
module TimedPairing {

  import opened Optional

  /** What a stored message carries: its sender, the name shown to its reader, its text. */
  datatype Posted<U> = Posted(sender: U, name: string, text: string)

  /** A record of the messages table: the message and who it was delivered to. */
  datatype Item<U> = Item(posted: Posted<U>, sentTo: Option<U>)

  type Rows<U> = map<(string, int), Item<U>>

  /** A record the query returns for channel `tags` and a new message at `before`. */
  predicate Claimable<U>(rows: Rows<U>, tags: string, before: int, t: int) {
    (tags, t) in rows && t < before && rows[(tags, t)].sentTo.None?
  }

  function Unclaimed<U>(rows: Rows<U>, tags: string, before: int): (u: set<int>)
    ensures forall t :: t in u <==> Claimable(rows, tags, before, t)
  {
    set k | k in rows && k.0 == tags && k.1 < before && rows[k].sentTo.None? :: k.1
  }

  predicate IsMax(m: int, s: set<int>) {
    m in s && forall x :: x in s ==> x <= m
  }

  lemma MaxExists(s: set<int>)
    requires exists y :: y in s
    ensures exists m :: IsMax(m, s)
    decreases |s|
  {
    var y :| y in s;
    var r := s - {y};
    if exists z :: z in r {
      MaxExists(r);
      var m :| IsMax(m, r);
      var top := if y > m then y else m;
      forall x | x in s ensures x <= top {
        if x != y {
          assert x in r;
        }
      }
      assert IsMax(top, s);
    } else {
      forall x | x in s ensures x <= y {
        assert x == y || x in r;
      }
      assert IsMax(y, s);
    }
  }

  function Max(s: set<int>): (m: int)
    requires exists y :: y in s
    ensures IsMax(m, s)
  {
    MaxExists(s);
    var m :| IsMax(m, s);
    m
  }

  lemma SubsetSmaller(a: set<int>, b: set<int>, x: int)
    requires a <= b && x in b && x !in a
    ensures |a| < |b|
  {
    SubsetNotLarger(a, b - {x});
  }

  lemma SubsetNotLarger(a: set<int>, b: set<int>)
    requires a <= b
    ensures |a| <= |b|
    decreases |a|
  {
    if exists y :: y in a {
      var y :| y in a;
      SubsetNotLarger(a - {y}, b - {y});
    }
  }

  /** The query `tags = :tags AND datetime < :before`, filtered on `sent_to` not
      existing, newest first: the datetimes of exactly the claimable records, in
      strictly decreasing order. */
  function Candidates<U>(rows: Rows<U>, tags: string, before: int): (c: seq<int>)
    ensures forall t :: t in c <==> Claimable(rows, tags, before, t)
    ensures forall i, j :: 0 <= i < j < |c| ==> c[i] > c[j]
    decreases |Unclaimed(rows, tags, before)|
  {
    var u := Unclaimed(rows, tags, before);
    if exists y :: y in u then
      var m := Max(u);
      assert |Unclaimed(rows, tags, m)| < |u| by {
        SubsetSmaller(Unclaimed(rows, tags, m), u, m);
      }
      var rest := Candidates(rows, tags, m);
      assert forall j :: 0 <= j < |rest| ==> Claimable(rows, tags, m, rest[j]);
      [m] + rest
    else
      []
  }

  /** The newest claimable record. */
  ghost predicate Newest<U>(rows: Rows<U>, tags: string, before: int, t: int) {
    Claimable(rows, tags, before, t)
    && forall t' :: Claimable(rows, tags, before, t') ==> t' <= t
  }

  /** The query result starts with the newest claimable record. */
  lemma CandidatesHead<U>(rows: Rows<U>, tags: string, before: int)
    ensures Candidates(rows, tags, before) != [] <==> exists t :: Claimable(rows, tags, before, t)
    ensures Candidates(rows, tags, before) != [] ==> Newest(rows, tags, before, Candidates(rows, tags, before)[0])
  {
    var c := Candidates(rows, tags, before);
    if exists t :: Claimable(rows, tags, before, t) {
      var t :| Claimable(rows, tags, before, t);
      assert t in c;
    }
    if c != [] {
      forall t' | Claimable(rows, tags, before, t') ensures t' <= c[0] {
        assert t' in c;
        var j :| 0 <= j < |c| && c[j] == t';
        assert j == 0 || c[0] > c[j];
      }
    }
  }

  predicate Unset<U>(rows: Rows<U>, key: (string, int)) {
    key in rows && rows[key].sentTo.None?
  }

  /** The index of the first listed record still unclaimed, if any. */
  function FirstUnset<U>(rows: Rows<U>, tags: string, times: seq<int>): (r: Option<nat>)
    ensures r.Some? ==>
      && r.value < |times|
      && Unset(rows, (tags, times[r.value]))
      && forall j :: 0 <= j < r.value ==> !Unset(rows, (tags, times[j]))
    ensures r.None? ==> forall j :: 0 <= j < |times| ==> !Unset(rows, (tags, times[j]))
  {
    if times == [] then None
    else if Unset(rows, (tags, times[0])) then Some(0)
    else match FirstUnset(rows, tags, times[1..])
      case None => None
      case Some(i) => Some(i + 1)
  }

  /** The record `key` with `sent_to` set to `by`. */
  function Claim<U>(rows: Rows<U>, key: (string, int), reader: U): Rows<U>
    requires key in rows
  {
    rows[key := rows[key].(sentTo := Some(reader))]
  }

  /** What the exchange tells the sender: there was no candidate, the newest
      candidate is the sender's own, or a candidate was delivered. */
  datatype Pairing<U> = NoCandidate | SameSender | Delivered(from: Posted<U>)

  /** Store the new message at (tags, now), query, then answer "no message ever"
      when there is no candidate, "you again" when the newest one is the
      sender's own, and otherwise claim the newest one and deliver it. */
  function Exchange<U(==)>(rows: Rows<U>, tags: string, now: int, posted: Posted<U>): (Pairing<U>, Rows<U>) {
    var stored := rows[(tags, now) := Item(posted, None)];
    var c := Candidates(stored, tags, now);
    if c == [] then (NoCandidate, stored)
    else if stored[(tags, c[0])].posted.sender == posted.sender then (SameSender, stored)
    else (Delivered(stored[(tags, c[0])].posted), Claim(stored, (tags, c[0]), posted.sender))
  }

  /** Storing the new message changes nothing about which earlier records are claimable. */
  lemma StoreKeepsClaimable<U>(rows: Rows<U>, tags: string, now: int, posted: Posted<U>)
    ensures forall t :: Claimable(rows[(tags, now) := Item(posted, None)], tags, now, t) <==> Claimable(rows, tags, now, t)
  {
  }

  /** The three outcomes, stated on the table as it was before the message arrived. */
  lemma {:induction false} ExchangeOutcome<U>(rows: Rows<U>, tags: string, now: int, posted: Posted<U>)
    ensures var (p, after) := Exchange(rows, tags, now, posted);
      && (p.NoCandidate? <==> forall t :: !Claimable(rows, tags, now, t))
      && (p.NoCandidate? || p.SameSender? ==> after == rows[(tags, now) := Item(posted, None)])
    ensures var (p, after) := Exchange(rows, tags, now, posted);
      forall t :: Newest(rows, tags, now, t) ==>
        && (p.SameSender? <==> rows[(tags, t)].posted.sender == posted.sender)
        && (p.Delivered? ==>
              && p.from == rows[(tags, t)].posted
              && after == Claim(rows[(tags, now) := Item(posted, None)], (tags, t), posted.sender))
  {
    var stored := rows[(tags, now) := Item(posted, None)];
    StoreKeepsClaimable(rows, tags, now, posted);
    CandidatesHead(stored, tags, now);
    if exists t :: Claimable(rows, tags, now, t) {
      var t :| Claimable(rows, tags, now, t);
      assert Claimable(stored, tags, now, t);
    } else {
      forall t ensures !Claimable(stored, tags, now, t) {
        assert !Claimable(rows, tags, now, t);
      }
      assert Candidates(stored, tags, now) == [];
    }
    forall t | Newest(rows, tags, now, t)
      ensures Candidates(stored, tags, now) != [] && Candidates(stored, tags, now)[0] == t
    {
      var c0 := Candidates(stored, tags, now)[0];
      assert Newest(stored, tags, now, c0);
      assert Claimable(rows, tags, now, c0);
      assert Claimable(stored, tags, now, t);
    }
  }

  /** The new message is stored under (tags, now) and is itself unclaimed. */
  lemma ExchangeStores<U>(rows: Rows<U>, tags: string, now: int, posted: Posted<U>)
    ensures var after := Exchange(rows, tags, now, posted).1;
      (tags, now) in after && after[(tags, now)] == Item(posted, None)
  {
  }

  /** The exchange changes at most one earlier record, from unclaimed to claimed by
      the sender, and never a record already claimed. */
  lemma {:induction false} ExchangeClaimsAtMostOne<U>(rows: Rows<U>, tags: string, now: int, posted: Posted<U>)
    ensures var after := Exchange(rows, tags, now, posted).1;
      && after.Keys == rows.Keys + {(tags, now)}
      && (forall k :: k in rows && k != (tags, now) && rows[k].sentTo.Some? ==> after[k] == rows[k])
      && (forall k :: k in rows && k != (tags, now) && after[k] != rows[k] ==>
            && Exchange(rows, tags, now, posted).0.Delivered?
            && rows[k].sentTo.None?
            && after[k] == rows[k].(sentTo := Some(posted.sender)))
      && (forall k, k' ::
            (k in rows && k' in rows && k != (tags, now) && k' != (tags, now)
             && after[k] != rows[k] && after[k'] != rows[k']) ==> k == k')
  {
    var stored := rows[(tags, now) := Item(posted, None)];
    var c := Candidates(stored, tags, now);
    if c != [] {
      assert Claimable(stored, tags, now, c[0]);
    }
  }

  /** A delivered message can never be delivered again: it stays out of every
      later query. */
  lemma DeliveredOnce<U>(rows: Rows<U>, tags: string, now: int, posted: Posted<U>, t: int, later: int)
    requires Newest(rows, tags, now, t)
    requires Exchange(rows, tags, now, posted).0.Delivered?
    ensures !Claimable(Exchange(rows, tags, now, posted).1, tags, later, t)
  {
    ExchangeOutcome(rows, tags, now, posted);
  }

  /** In a table no one else writes to, the first listed candidate is the one claimed. */
  lemma FirstCandidateUnset<U>(rows: Rows<U>, tags: string, before: int)
    requires Candidates(rows, tags, before) != []
    ensures FirstUnset(rows, tags, Candidates(rows, tags, before)) == Some(0)
  {
    var c := Candidates(rows, tags, before);
    assert Claimable(rows, tags, before, c[0]);
  }

  /** The messages table of the timestamp-keyed handlers. */
  class TimedMessages<U(==)> {
    var rows: Rows<U>

    constructor ()
      ensures rows == map[]
    {
      rows := map[];
    }

    /** `put_item`: the whole record at (tags, datetime) is replaced. */
    method Put(tags: string, datetime: int, posted: Posted<U>)
      modifies this
      ensures rows == old(rows)[(tags, datetime) := Item(posted, None)]
    {
      rows := rows[(tags, datetime) := Item(posted, None)];
    }

    /** The newest-first query of unclaimed records earlier than `before`. */
    method Query(tags: string, before: int) returns (times: seq<int>)
      ensures times == Candidates(rows, tags, before)
    {
      times := Candidates(rows, tags, before);
    }

    /** `SET sent_to = :reader` under the condition `attribute_not_exists(sent_to)`. */
    method ClaimIfUnset(tags: string, datetime: int, reader: U) returns (ok: bool)
      requires (tags, datetime) in rows
      modifies this
      ensures ok <==> old(rows)[(tags, datetime)].sentTo.None?
      ensures ok ==> rows == Claim(old(rows), (tags, datetime), reader)
      ensures !ok ==> rows == old(rows)
    {
      ok := rows[(tags, datetime)].sentTo.None?;
      if ok {
        rows := Claim(rows, (tags, datetime), reader);
      }
    }

    /** The claim loop over a query result: try each record in order, stop at the
        first conditional update that succeeds. `chosen` is the record the loop
        variable is left on: the claimed one, or the last one when every update
        failed. */
    method ClaimFirst(tags: string, times: seq<int>, reader: U) returns (chosen: nat)
      requires |times| > 0
      requires forall i :: 0 <= i < |times| ==> (tags, times[i]) in rows
      modifies this
      ensures chosen < |times|
      ensures FirstUnset(old(rows), tags, times).Some? ==>
        chosen == FirstUnset(old(rows), tags, times).value
        && rows == Claim(old(rows), (tags, times[chosen]), reader)
      ensures FirstUnset(old(rows), tags, times).None? ==>
        chosen == |times| - 1 && rows == old(rows)
    {
      var i := 0;
      while i < |times|
        invariant 0 <= i <= |times|
        invariant rows == old(rows)
        invariant forall j :: 0 <= j < i ==> !Unset(rows, (tags, times[j]))
      {
        var ok := ClaimIfUnset(tags, times[i], reader);
        if ok {
          FirstUnsetIsFirst(old(rows), tags, times, i);
          return i;
        }
        i := i + 1;
      }
      chosen := |times| - 1;
    }
  }

  /** A listed record that is unset and preceded only by claimed ones is the one
      `FirstUnset` names. */
  lemma FirstUnsetIsFirst<U>(rows: Rows<U>, tags: string, times: seq<int>, i: nat)
    requires i < |times| && Unset(rows, (tags, times[i]))
    requires forall j :: 0 <= j < i ==> !Unset(rows, (tags, times[j]))
    ensures FirstUnset(rows, tags, times) == Some(i)
  {
  }

  /** The table steps of the three handlers: store, query, the two early answers,
      then the claim loop; the delivered message is the record the loop stopped on. */
  method Pair<U(==)>(table: TimedMessages<U>, tags: string, now: int, posted: Posted<U>) returns (p: Pairing<U>)
    modifies table
    ensures (p, table.rows) == Exchange(old(table.rows), tags, now, posted)
  {
    table.Put(tags, now, posted);
    var times := table.Query(tags, now);
    if |times| == 0 {
      return NoCandidate;
    }
    if table.rows[(tags, times[0])].posted.sender == posted.sender {
      return SameSender;
    }
    assert forall i :: 0 <= i < |times| ==> Claimable(table.rows, tags, now, times[i]);
    FirstCandidateUnset(table.rows, tags, now);
    var chosen := table.ClaimFirst(tags, times, posted.sender);
    p := Delivered(table.rows[(tags, times[chosen])].posted);
  }
}
