/**
 * The bottle quota of src/callbacks/text.py:13-50 (the same function is repeated at
 * src/callbacks/callbacks.py:33-70): sending a message costs one bottle; a user
 * with none left may still send once it has been more than twelve hours since the
 * record's timestamp, without getting a bottle back.
 *
 * The `users_table` is a class over a map. Each conditional `update_item` is one
 * atomic method; `TryDebit` is the pure two-phase step they add up to.
 */
module Quota {

  import opened Optional
  import opened Context
  import opened Interface

  /** `timedelta(hours=12)`, in microseconds. */
  const TwelveHours: int := 12 * 60 * 60 * 1000000
  const InitialBottles: int := 5

  /** A record of the users table. */
  datatype User = User(bottles: int, bottlesUpdated: int, balloons: int)

  /** A fresh user record as written by `start`. */
  function NewUser(now: int): User {
    User(InitialBottles, now, 0)
  }

  function Get(rows: map<string, User>, id: string): Option<User> {
    if id in rows then Some(rows[id]) else None
  }

  /** The outcome of `remove_bottle` on one record: the first guarded update
      succeeded, the second one did, or neither. */
  datatype Debit = Decremented(user: User) | Refreshed(user: User) | Refused

  /** The first update applies when `bottles > 0`; failing that, the second when
      `bottles_updated < now - 12h`. A missing record fails both conditions. */
  function TryDebit(u: Option<User>, now: int): Debit {
    if u.Some? && u.value.bottles > 0 then
      Decremented(u.value.(bottles := u.value.bottles - 1, bottlesUpdated := now))
    else if u.Some? && u.value.bottlesUpdated < now - TwelveHours then
      Refreshed(u.value.(bottlesUpdated := now))
    else
      Refused
  }

  /** The value `remove_bottle` leaves in `handler.bottles`. */
  function Remaining(d: Debit): int {
    if d.Decremented? then d.user.bottles else 0
  }

  /** The table after the debit with outcome `d` on the record `id`. */
  function Store(rows: map<string, User>, id: string, d: Debit): map<string, User> {
    if d.Refused? then rows else rows[id := d.user]
  }

  /** The three cases, with everything each leaves alone. */
  lemma DebitCases(u: Option<User>, now: int)
    ensures u.Some? && u.value.bottles > 0 ==>
      && TryDebit(u, now).Decremented?
      && TryDebit(u, now).user == User(u.value.bottles - 1, now, u.value.balloons)
      && Remaining(TryDebit(u, now)) == u.value.bottles - 1
    ensures u.Some? && u.value.bottles <= 0 && u.value.bottlesUpdated < now - TwelveHours ==>
      && TryDebit(u, now).Refreshed?
      && TryDebit(u, now).user == User(u.value.bottles, now, u.value.balloons)
      && Remaining(TryDebit(u, now)) == 0
    ensures TryDebit(u, now).Refused? <==>
      (u.None? || (u.value.bottles <= 0 && u.value.bottlesUpdated >= now - TwelveHours))
  {
  }

  /** A debit never takes more than one bottle, never makes a count negative, and
      never touches the balloon count. */
  lemma DebitBounds(u: User, now: int)
    requires u.bottles >= 0
    ensures !TryDebit(Some(u), now).Refused? ==>
      var v := TryDebit(Some(u), now).user;
      && v.bottles >= 0
      && u.bottles - 1 <= v.bottles <= u.bottles
      && v.balloons == u.balloons
      && v.bottlesUpdated == now
    ensures Remaining(TryDebit(Some(u), now)) >= 0
  {
  }

  /** Successive `remove_bottle` calls at the given times: which were granted, and
      the record afterwards. */
  function DebitRun(u: User, times: seq<int>): (r: (User, seq<bool>))
    ensures |r.1| == |times|
    decreases |times|
  {
    if times == [] then (u, [])
    else
      var d := TryDebit(Some(u), times[0]);
      var next := if d.Refused? then u else d.user;
      var rest := DebitRun(next, times[1..]);
      (rest.0, [!d.Refused?] + rest.1)
  }

  /** Times that do not go backwards and stay within twelve hours of the record's
      timestamp `start`. */
  predicate Window(start: int, times: seq<int>) {
    && (forall i :: 0 <= i < |times| ==> start <= times[i] <= start + TwelveHours)
    && (forall i, j :: 0 <= i < j < |times| ==> times[i] <= times[j])
  }

  /** A user with n bottles, sending n + 1 messages within twelve hours of its
      timestamp, is granted the first n and refused the last. */
  lemma {:induction false} DrainThenRefuse(u: User, times: seq<int>)
    requires u.bottles >= 0 && |times| == u.bottles + 1
    requires Window(u.bottlesUpdated, times)
    ensures forall i :: 0 <= i < u.bottles ==> DebitRun(u, times).1[i]
    ensures !DebitRun(u, times).1[u.bottles]
    ensures DebitRun(u, times).0.bottles == 0
    decreases u.bottles
  {
    if u.bottles == 0 {
      assert TryDebit(Some(u), times[0]).Refused?;
    } else {
      var v := TryDebit(Some(u), times[0]).user;
      assert v.bottles == u.bottles - 1 && v.bottlesUpdated == times[0];
      assert Window(v.bottlesUpdated, times[1..]);
      DrainThenRefuse(v, times[1..]);
      var rest := DebitRun(v, times[1..]);
      assert DebitRun(u, times).1 == [true] + rest.1;
    }
  }

  /** From a fresh record: five messages are granted, the sixth within the
      twelve hours is refused. */
  lemma SixthMessageRefused(now: int, times: seq<int>)
    requires |times| == 6 && Window(now, times)
    ensures forall i :: 0 <= i < 5 ==> DebitRun(NewUser(now), times).1[i]
    ensures !DebitRun(NewUser(now), times).1[5]
  {
    DrainThenRefuse(NewUser(now), times);
  }

  /** An exhausted user is granted one message once the twelve hours are over, and
      the clock restarts from that moment. */
  lemma RefreshRestartsClock(u: User, now: int, later: int)
    requires u.bottles == 0 && now > u.bottlesUpdated + TwelveHours
    requires now <= later <= now + TwelveHours
    ensures TryDebit(Some(u), now).Refreshed?
    ensures TryDebit(Some(TryDebit(Some(u), now).user), later).Refused?
  {
  }

  /** The `users_table`. */
  class Users {
    var rows: map<string, User>

    constructor ()
      ensures rows == map[]
    {
      rows := map[];
    }

    /** `SET bottles = bottles - 1, bottles_updated = now` if `bottles > 0`,
        returning the new count. */
    method DecrementBottle(id: string, now: int) returns (ok: bool, bottles: int)
      modifies this
      ensures ok <==> id in old(rows) && old(rows)[id].bottles > 0
      ensures ok ==> bottles == old(rows)[id].bottles - 1
      ensures ok ==> rows == old(rows)[id := old(rows)[id].(bottles := bottles, bottlesUpdated := now)]
      ensures !ok ==> rows == old(rows)
    {
      ok := id in rows && rows[id].bottles > 0;
      bottles := 0;
      if ok {
        bottles := rows[id].bottles - 1;
        rows := rows[id := rows[id].(bottles := bottles, bottlesUpdated := now)];
      }
    }

    /** `SET bottles_updated = now` if `bottles_updated < now - 12h`. */
    method RefreshBottles(id: string, now: int) returns (ok: bool)
      modifies this
      ensures ok <==> id in old(rows) && old(rows)[id].bottlesUpdated < now - TwelveHours
      ensures ok ==> rows == old(rows)[id := old(rows)[id].(bottlesUpdated := now)]
      ensures !ok ==> rows == old(rows)
    {
      ok := id in rows && rows[id].bottlesUpdated < now - TwelveHours;
      if ok {
        rows := rows[id := rows[id].(bottlesUpdated := now)];
      }
    }

    /** `put_item`: the record is replaced as a whole. */
    method Put(id: string, u: User)
      modifies this
      ensures rows == old(rows)[id := u]
    {
      rows := rows[id := u];
    }

    /** `SET bottles = bottles + 1`; on a missing record the expression names an
        attribute that does not exist and the update fails. */
    method AddBottle(id: string) returns (ok: bool)
      modifies this
      ensures ok <==> id in old(rows)
      ensures ok ==> rows == old(rows)[id := old(rows)[id].(bottles := old(rows)[id].bottles + 1)]
      ensures !ok ==> rows == old(rows)
    {
      ok := id in rows;
      if ok {
        rows := rows[id := rows[id].(bottles := rows[id].bottles + 1)];
      }
    }

    /** `SET balloons = balloons + 1`, failing the same way on a missing record. */
    method AddBalloon(id: string) returns (ok: bool)
      modifies this
      ensures ok <==> id in old(rows)
      ensures ok ==> rows == old(rows)[id := old(rows)[id].(balloons := old(rows)[id].balloons + 1)]
      ensures !ok ==> rows == old(rows)
    {
      ok := id in rows;
      if ok {
        rows := rows[id := rows[id].(balloons := rows[id].balloons + 1)];
      }
    }
  }

  /** `remove_bottle`: `handler.bottles` is reset to 0, then the decrement is tried,
      then the refresh. */
  method RemoveBottle(handler: Handler, users: Users, now: int) returns (ok: bool)
    modifies handler`bottles, users
    ensures var d := TryDebit(Get(old(users.rows), handler.message.userId), now);
      && ok == !d.Refused?
      && handler.bottles == Remaining(d)
      && users.rows == Store(old(users.rows), handler.message.userId, d)
  {
    handler.bottles := 0;
    var decremented, bottles := users.DecrementBottle(handler.message.userId, now);
    if decremented {
      handler.bottles := bottles;
      return true;
    }
    ok := users.RefreshBottles(handler.message.userId, now);
  }
}
