/** The coordinator's coalesced notify: every update re-arms a 50 ms timer, the timer flushes. */
module Debounce {
  import opened Wrappers
  import opened Cache
  import Light

  const DEBOUNCE_MS: nat := 50

  /** The gap after `a` is long enough for the timer to fire before an update at `b`. When both fall
      on the same instant `timerFirst` decides; every result holds for both answers. */
  predicate Splits(a: nat, b: nat, timerFirst: bool) {
    a + DEBOUNCE_MS < b || (a + DEBOUNCE_MS == b && timerFirst)
  }

  /** Update `i` is the last of its burst: no update follows it soon enough. */
  predicate EndsBurst(updates: seq<nat>, i: nat, timerFirst: bool)
    requires i < |updates|
  {
    i + 1 == |updates| || Splits(updates[i], updates[i + 1], timerFirst)
  }

  /** The maximal bursts among the updates up to `n`, each named by its last update. */
  function BurstEnds(updates: seq<nat>, n: nat, timerFirst: bool): set<nat>
    requires n <= |updates|
  {
    set i: nat | i < n && EndsBurst(updates, i, timerFirst)
  }

  /** A flush: when, and what it publishes. */
  datatype Push = Push(at: nat, data: States)

  function PushOf(updates: seq<nat>, states: seq<States>, i: nat): Push
    requires i < |updates| == |states|
  {
    Push(updates[i] + DEBOUNCE_MS, states[i])
  }

  /** The flushes those bursts call for, in order; `states[i]` is the cache that update `i` leaves. */
  function Pushes(updates: seq<nat>, states: seq<States>, n: nat, timerFirst: bool): seq<Push>
    requires n <= |updates| == |states|
  {
    if n == 0 then []
    else
      Pushes(updates, states, n - 1, timerFirst)
      + if EndsBurst(updates, n - 1, timerFirst) then [PushOf(updates, states, n - 1)] else []
  }

  ghost predicate Ordered(updates: seq<nat>) {
    forall i, j :: 0 <= i < j < |updates| ==> updates[i] <= updates[j]
  }

  /** There are as many flushes as maximal bursts. */
  lemma {:induction false} OneFlushPerBurst(updates: seq<nat>, states: seq<States>, n: nat, timerFirst: bool)
    requires n <= |updates| == |states|
    ensures |Pushes(updates, states, n, timerFirst)| == |BurstEnds(updates, n, timerFirst)|
  {
    if n > 0 {
      OneFlushPerBurst(updates, states, n - 1, timerFirst);
      var shorter, longer := BurstEnds(updates, n - 1, timerFirst), BurstEnds(updates, n, timerFirst);
      if EndsBurst(updates, n - 1, timerFirst) {
        assert longer == shorter + {n - 1};
      } else {
        assert longer == shorter;
      }
    }
  }

  /** And each belongs to one: a flush comes 50 ms after an update and publishes the cache this update
      leaves, if and only if no other update came in between. */
  lemma {:induction false} FlushOfBurst(updates: seq<nat>, states: seq<States>, n: nat, timerFirst: bool, p: Push)
    requires n <= |updates| == |states|
    ensures p in Pushes(updates, states, n, timerFirst)
            <==> exists i: nat :: i < n && p == PushOf(updates, states, i)
                   && (i + 1 < |updates| ==>
                         updates[i] + 50 < updates[i + 1] || (updates[i] + 50 == updates[i + 1] && timerFirst))
  {
    if n > 0 {
      FlushOfBurst(updates, states, n - 1, timerFirst, p);
    }
  }

  /** So no update lies in the 50 ms before a flush, but for the one at their beginning. */
  lemma NoUpdateBeforeFlush(updates: seq<nat>, states: seq<States>, timerFirst: bool, p: Push, j: nat)
    requires |updates| == |states| && Ordered(updates) && j < |updates|
    requires p in Pushes(updates, states, |updates|, timerFirst)
    ensures p.at >= 50 && !(p.at - 50 < updates[j] < p.at)
  {
    FlushOfBurst(updates, states, |updates|, timerFirst, p);
    var i: nat :| i < |updates| && p == PushOf(updates, states, i)
                  && (i + 1 < |updates| ==> updates[i] + 50 <= updates[i + 1]);
    if i < j {
      assert updates[i + 1] <= updates[j];
    }
  }

  /** The coordinator's data at time `t`: that of the last flush by then. */
  function DataAt(start: States, pushes: seq<Push>, t: nat): States {
    if pushes == [] then start
    else if pushes[|pushes| - 1].at <= t then pushes[|pushes| - 1].data
    else DataAt(start, pushes[..|pushes| - 1], t)
  }

  /** At every instant after an update, and before the next: either fewer than 50 ms have passed, so
      the timer is armed, or the data is the cache. */
  lemma ArmedOrCurrent(updates: seq<nat>, states: seq<States>, timerFirst: bool, start: States, i: nat, t: nat)
    requires |updates| == |states| && Ordered(updates)
    requires i < |updates| && updates[i] <= t && (i + 1 < |updates| ==> t < updates[i + 1])
    ensures t < updates[i] + DEBOUNCE_MS
            || DataAt(start, Pushes(updates, states, |updates|, timerFirst), t) == states[i]
  {
    if updates[i] + DEBOUNCE_MS <= t {
      assert EndsBurst(updates, i, timerFirst);
      LaterPushes(updates, states, |updates|, timerFirst, start, i, t);
    }
  }

  lemma {:induction false} LaterPushes(
      updates: seq<nat>, states: seq<States>, n: nat, timerFirst: bool, start: States, i: nat, t: nat)
    requires i < n <= |updates| == |states| && Ordered(updates)
    requires updates[i] + DEBOUNCE_MS <= t && (i + 1 < |updates| ==> t < updates[i + 1])
    requires EndsBurst(updates, i, timerFirst)
    ensures DataAt(start, Pushes(updates, states, n, timerFirst), t) == states[i]
  {
    var pushes, before := Pushes(updates, states, n, timerFirst), Pushes(updates, states, n - 1, timerFirst);
    if EndsBurst(updates, n - 1, timerFirst) {
      assert pushes[..|pushes| - 1] == before;
    } else {
      assert pushes == before;
    }
    if n - 1 > i {
      assert t < updates[i + 1] <= updates[n - 1];
      LaterPushes(updates, states, n - 1, timerFirst, start, i, t);
    }
  }

  // ---------------------------------------------------------------------------------------------
  // The timed trace as a run of the untimed chain
  // ---------------------------------------------------------------------------------------------

  /** The chain of `Light.dfy` on the same trace: an update arms the flush, the timer flushes. */
  function Chained(s: Light.System, updates: seq<nat>, states: seq<States>, n: nat, timerFirst: bool): Light.System
    requires n <= |updates| == |states|
  {
    if n == 0 then s
    else
      var armed := Chained(s, updates, states, n - 1, timerFirst).(states := states[n - 1], pending := true);
      if EndsBurst(updates, n - 1, timerFirst) then Light.Flushed(armed) else armed
  }

  /** The untimed chain is faithful to the clock: after each update it has a flush pending exactly
      when the timer is still armed, and it publishes what the timer publishes. */
  lemma {:induction false} ChainFollowsClock(
      s: Light.System, updates: seq<nat>, states: seq<States>, n: nat, timerFirst: bool)
    requires n <= |updates| == |states| && !s.pending
    ensures var c := Chained(s, updates, states, n, timerFirst);
            var pushes := Pushes(updates, states, n, timerFirst);
            && (c.pending <==> n > 0 && !EndsBurst(updates, n - 1, timerFirst))
            && c.data == (if pushes == [] then s.data else pushes[|pushes| - 1].data)
            && (n > 0 ==> c.states == states[n - 1])
  {
    if n > 0 {
      ChainFollowsClock(s, updates, states, n - 1, timerFirst);
    }
  }

  class DobissCoordinator {
    var debounceDue: Option<nat>
    var data: States
    var flushed: seq<Push>

    constructor (states: States)
      ensures debounceDue == None && data == states && flushed == []
    {
      debounceDue, data, flushed := None, states, [];
    }

    /** `_on_controller_update` */
    method OnControllerUpdate(now: nat)
      modifies this`debounceDue
      ensures debounceDue == Some(now + DEBOUNCE_MS)
    {
      debounceDue := Some(now + DEBOUNCE_MS);
    }

    /** `_flush_state` */
    method FlushState(now: nat, states: States)
      modifies this
      ensures debounceDue == None && data == states && flushed == old(flushed) + [Push(now, states)]
    {
      debounceDue := None;
      data := states;
      flushed := flushed + [Push(now, states)];
    }

    /** `async_shutdown`: a pending flush never happens. */
    method AsyncShutdown()
      modifies this`debounceDue
      ensures debounceDue == None
    {
      debounceDue := None;
    }

    /** The event loop on a whole trace of updates: exactly one flush per maximal burst, 50 ms after
        its last update, with the cache of that moment. */
    method RunTrace(updates: seq<nat>, states: seq<States>, timerFirst: bool)
      requires debounceDue == None && |states| == |updates| && Ordered(updates)
      modifies this
      ensures flushed == old(flushed) + Pushes(updates, states, |updates|, timerFirst)
      ensures debounceDue == None
      ensures data == if updates == [] then old(data) else states[|states| - 1]
    {
      for i := 0 to |updates|
        invariant debounceDue == if i == 0 then None else Some(updates[i - 1] + DEBOUNCE_MS)
        invariant flushed == old(flushed) + Pushes(updates, states, if i == 0 then 0 else i - 1, timerFirst)
        invariant i == 0 ==> data == old(data)
      {
        if debounceDue.Some? {
          var due := debounceDue.value;
          if due < updates[i] || (due == updates[i] && timerFirst) {
            FlushState(due, states[i - 1]);
          }
        }
        OnControllerUpdate(updates[i]);
      }
      if debounceDue.Some? {
        FlushState(debounceDue.value, states[|states| - 1]);
      }
    }
  }
}
