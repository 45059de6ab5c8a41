/** Virtual time in milliseconds: when the settle loop of a refresh returns. A wait races a timer
    against the next arrival; `frameWins` says which of the two goes first when they fall on the
    same instant, and every result holds for both answers. */
module Timing {
  import opened Wrappers

  function Min(a: nat, b: nat): (m: nat)
    ensures m <= a && m <= b && m in {a, b}
  {
    if a < b then a else b
  }

  function Max(a: nat, b: nat): (m: nat)
    ensures a <= m && b <= m && m in {a, b}
  {
    if a < b then b else a
  }

  /** Arrival times, earliest first. */
  datatype Times = Nil | Cons(at: nat, rest: Times)

  function Elems(ts: Times): set<nat> {
    if ts.Nil? then {} else {ts.at} + Elems(ts.rest)
  }

  predicate From(ts: Times, now: nat) {
    ts.Cons? ==> now <= ts.at && From(ts.rest, ts.at)
  }

  /** The next arrival comes before a timer that expires at `limit`. */
  predicate InTime(ts: Times, limit: nat, frameWins: bool) {
    ts.Cons? && (ts.at < limit || (ts.at == limit && frameWins))
  }

  /** The loop after the first response: each arrival restarts the idle window, the deadline caps it. */
  function Settle(ts: Times, now: nat, deadline: nat, idle: nat, frameWins: bool): nat {
    if deadline <= now then now
    else
      var limit := now + Min(idle, deadline - now);
      if InTime(ts, limit, frameWins) then Settle(ts.rest, ts.at, deadline, idle, frameWins) else limit
  }

  /** The arrivals that are not before `t`. */
  function Late(ts: Times, t: nat): Times {
    if ts.Cons? && ts.at < t then Late(ts.rest, t) else ts
  }

  /** The first response to a request sent at `sent`: when it is noticed, and the arrivals after
      it. One that came while the request was being sent is noticed at once. */
  function FirstResponse(ts: Times, sent: nat, timeout: nat, frameWins: bool): Option<(nat, Times)> {
    if ts.Cons? && ts.at < sent then Some((sent, Late(ts, sent)))
    else if InTime(ts, sent + timeout, frameWins) then Some((ts.at, ts.rest))
    else None
  }

  /** When a refresh returns: `ts` are the arrivals since its event was registered, `sent` is when
      the dump request had been sent. */
  function RefreshReturn(ts: Times, sent: nat, timeout: nat, idle: nat, frameWins: bool): nat {
    var first := FirstResponse(ts, sent, timeout, frameWins);
    if first.None? then sent + timeout
    else Settle(first.value.1, first.value.0, sent + timeout, idle, frameWins)
  }

  /** No arrival restarts a window that began at `a` and ends at `q`. */
  ghost predicate Silent(ts: Times, a: int, q: nat, frameWins: bool) {
    forall b | b in Elems(ts) :: b <= a || q < b || (b == q && !frameWins)
  }

  /** At `q` a full idle window of silence ends that began at the start `now` or at an arrival. */
  ghost predicate QuietFrom(ts: Times, now: nat, idle: nat, q: nat, frameWins: bool) {
    && idle <= q
    && (q - idle == now || q - idle in Elems(ts))
    && Silent(ts, q - idle, q, frameWins)
  }

  /** The same from a sent request on: at least one arrival has been seen by then. */
  ghost predicate QuietAt(ts: Times, sent: nat, idle: nat, q: nat, frameWins: bool) {
    && sent + idle <= q
    && (q - idle in Elems(ts) || (q - idle == sent && exists b :: b in Elems(ts) && b <= sent))
    && Silent(ts, q - idle, q, frameWins)
  }

  lemma {:induction false} FromBounds(ts: Times, now: nat)
    requires From(ts, now)
    ensures forall b | b in Elems(ts) :: now <= b
  {
    if ts.Cons? {
      FromBounds(ts.rest, ts.at);
    }
  }

  lemma {:induction false} SettleEndsQuiet(ts: Times, now: nat, deadline: nat, idle: nat, frameWins: bool)
    requires From(ts, now) && now <= deadline
    ensures var r := Settle(ts, now, deadline, idle, frameWins);
            now <= r <= deadline && (r == deadline || QuietFrom(ts, now, idle, r, frameWins))
  {
    FromBounds(ts, now);
    if now < deadline && ts.Cons? {
      FromBounds(ts, ts.at);
      FromBounds(ts.rest, ts.at);
      var r := Settle(ts, now, deadline, idle, frameWins);
      if InTime(ts, now + Min(idle, deadline - now), frameWins) {
        SettleEndsQuiet(ts.rest, ts.at, deadline, idle, frameWins);
        if r != deadline {
          assert r - idle == ts.at || r - idle in Elems(ts.rest);
          assert ts.at <= r - idle;
          assert Silent(ts, r - idle, r, frameWins);
        }
      } else {
        assert r == deadline || Silent(ts, now, r, frameWins);
      }
    }
  }

  lemma {:induction false} SettleNotLater(
      ts: Times, now: nat, deadline: nat, idle: nat, frameWins: bool, q: nat)
    requires From(ts, now) && now <= deadline
    requires QuietFrom(ts, now, idle, q, frameWins)
    ensures Settle(ts, now, deadline, idle, frameWins) <= q
  {
    FromBounds(ts, now);
    if now < deadline && InTime(ts, now + Min(idle, deadline - now), frameWins) {
      // The window cannot have begun before ts.at: that arrival falls into it.
      assert ts.at in Elems(ts);
      SettleNotLater(ts.rest, ts.at, deadline, idle, frameWins, q);
    }
  }

  lemma {:induction false} LateSplits(ts: Times, now: nat, t: nat)
    requires From(ts, now)
    ensures From(Late(ts, t), t)
    ensures forall b | b in Elems(Late(ts, t)) :: b in Elems(ts)
    ensures forall b | b in Elems(ts) :: b < t || b in Elems(Late(ts, t))
  {
    if ts.Cons? && ts.at < t {
      LateSplits(ts.rest, ts.at, t);
    }
  }

  /** A quiet instant seen from the start of the settle loop. */
  lemma QuietAfterFirst(ts: Times, sent: nat, timeout: nat, idle: nat, q: nat, frameWins: bool)
    requires From(ts, 0) && FirstResponse(ts, sent, timeout, frameWins).Some?
    ensures var (now, rest) := FirstResponse(ts, sent, timeout, frameWins).value;
            && From(rest, now) && sent <= now <= sent + timeout
            && (QuietAt(ts, sent, idle, q, frameWins) <==> QuietFrom(rest, now, idle, q, frameWins))
  {
    var (now, rest) := FirstResponse(ts, sent, timeout, frameWins).value;
    LateSplits(ts, 0, sent);
    FromBounds(ts, 0);
    FromBounds(ts.rest, ts.at);
    FromBounds(rest, now);
    assert ts.at in Elems(ts);
    if QuietFrom(rest, now, idle, q, frameWins) {
      assert Silent(ts, q - idle, q, frameWins);
    }
    if QuietAt(ts, sent, idle, q, frameWins) {
      assert Silent(rest, q - idle, q, frameWins);
    }
  }

  /** The return time of a refresh, told without the loop. */
  ghost predicate FirstQuietOrDeadline(ts: Times, sent: nat, timeout: nat, idle: nat, frameWins: bool, r: nat) {
    && sent <= r <= sent + timeout
    && (r == sent + timeout || QuietAt(ts, sent, idle, r, frameWins))
    && forall q: nat :: q < r ==> !QuietAt(ts, sent, idle, q, frameWins)
  }

  /** A refresh returns at the deadline or at the first instant that ends an idle window of silence
      after an arrival, whichever comes first. */
  lemma RefreshAtFirstQuiet(ts: Times, sent: nat, timeout: nat, idle: nat, frameWins: bool)
    requires From(ts, 0)
    ensures FirstQuietOrDeadline(ts, sent, timeout, idle, frameWins,
                                 RefreshReturn(ts, sent, timeout, idle, frameWins))
  {
    var r := RefreshReturn(ts, sent, timeout, idle, frameWins);
    var first := FirstResponse(ts, sent, timeout, frameWins);
    if first.Some? {
      QuietAfterFirst(ts, sent, timeout, idle, r, frameWins);
      SettleEndsQuiet(first.value.1, first.value.0, sent + timeout, idle, frameWins);
    }
    forall q: nat | QuietAt(ts, sent, idle, q, frameWins)
      ensures r <= q
    {
      if first.Some? {
        QuietAfterFirst(ts, sent, timeout, idle, q, frameWins);
        SettleNotLater(first.value.1, first.value.0, sent + timeout, idle, frameWins, q);
      } else if ts.Cons? {
        FromBounds(ts, ts.at);
      }
    }
  }

  /** That description leaves no choice. */
  lemma FirstQuietIsUnique(ts: Times, sent: nat, timeout: nat, idle: nat, frameWins: bool, r1: nat, r2: nat)
    requires FirstQuietOrDeadline(ts, sent, timeout, idle, frameWins, r1)
    requires FirstQuietOrDeadline(ts, sent, timeout, idle, frameWins, r2)
    ensures r1 == r2
  {
    assert QuietAt(ts, sent, idle, r1, frameWins) || r1 == sent + timeout;
  }
}
