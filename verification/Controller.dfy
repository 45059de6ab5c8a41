/** The cache side of the controller object: ingest, local writes, commands, and the two loops that
    drain the bus until it is quiet, in virtual time. The bus side is in `Runtime.dfy`. */
module Controller {
  import opened Wrappers
  import opened Protocol
  import Brightness
  import opened Cache
  import opened Timing

  const DUMP_DRAIN_IDLE_MS: nat := 150
  const DISCOVERY_TIMEOUT_MS: nat := 15_000
  const LIVENESS_TIMEOUT_MS: nat := 300_000
  const DUMP_REQUEST_FRAME := Frame(CAN_ID_STATE_DUMP, [])

  /** A message together with the time at which the reader hands it over. */
  datatype Timed = Timed(at: nat, msg: Message)

  function Msgs(stream: seq<Timed>): seq<Message> {
    seq(|stream|, i requires 0 <= i < |stream| => stream[i].msg)
  }

  ghost predicate Ordered(stream: seq<Timed>) {
    forall i, j :: 0 <= i < j < |stream| ==> stream[i].at <= stream[j].at
  }

  /** The cache after the first `k` messages of a stream. */
  function StatesAfter(modules: seq<string>, start: States, stream: seq<Timed>, k: nat): States
    requires k <= |stream|
  {
    if k == 0 then start
    else Step(modules, Run(StatesAfter(modules, start, stream, k - 1), []), Received(stream[k - 1].msg)).states
  }

  lemma {:induction false} StatesAfterIsRun(modules: seq<string>, start: States, stream: seq<Timed>, k: nat)
    requires k <= |stream|
    ensures StatesAfter(modules, start, stream, k) == RunAll(modules, start, Frames(Msgs(stream)[..k])).states
  {
    if k > 0 {
      StatesAfterIsRun(modules, start, stream, k - 1);
      FramesSnoc(Msgs(stream), k - 1);
      RunSnoc(modules, start, Frames(Msgs(stream)[..k - 1]), Received(stream[k - 1].msg));
    }
  }

  /** The module letters among the first `k` messages that were let through. */
  function SeenAfter(modules: seq<string>, stream: seq<Timed>, k: nat): set<string>
    requires k <= |stream|
  {
    if k == 0 then {}
    else
      var u := Accepted(modules, stream[k - 1].msg);
      SeenAfter(modules, stream, k - 1) + if u.Some? then {u.value.letter} else {}
  }

  /** A letter is seen exactly when it is configured and one of those messages named it. */
  lemma {:induction false} SeenExactly(modules: seq<string>, stream: seq<Timed>, k: nat, letter: string)
    requires k <= |stream|
    ensures letter in SeenAfter(modules, stream, k)
            <==> letter in modules && exists i :: 0 <= i < k && Accepted(modules, stream[i].msg).Some?
                                                && Accepted(modules, stream[i].msg).value.letter == letter
  {
    if k > 0 {
      SeenExactly(modules, stream, k - 1, letter);
    }
  }

  /** When the frames from `k` on that count as a response arrive. */
  function AcceptedTimes(modules: seq<string>, stream: seq<Timed>, k: nat): Times
    requires k <= |stream|
    decreases |stream| - k
  {
    if k == |stream| then Nil
    else if Accepted(modules, stream[k].msg).Some? then Cons(stream[k].at, AcceptedTimes(modules, stream, k + 1))
    else AcceptedTimes(modules, stream, k + 1)
  }

  lemma {:induction false} AcceptedTimesExactly(modules: seq<string>, stream: seq<Timed>, k: nat, t: nat)
    requires k <= |stream|
    ensures t in Elems(AcceptedTimes(modules, stream, k))
            <==> exists i :: k <= i < |stream| && stream[i].at == t && Accepted(modules, stream[i].msg).Some?
    decreases |stream| - k
  {
    if k < |stream| {
      AcceptedTimesExactly(modules, stream, k + 1, t);
    }
  }

  lemma {:induction false} AcceptedTimesFrom(modules: seq<string>, stream: seq<Timed>, k: nat, now: nat)
    requires Ordered(stream) && k <= |stream|
    requires k < |stream| ==> now <= stream[k].at
    ensures From(AcceptedTimes(modules, stream, k), now)
    decreases |stream| - k
  {
    if k < |stream| {
      AcceptedTimesFrom(modules, stream, k + 1, stream[k].at);
    }
  }

  /** The time at which the wait for message `k` begins, for a loop that starts at message `first`. */
  function WaitFrom(stream: seq<Timed>, first: nat, k: nat, start: nat): nat
    requires first <= k <= |stream|
  {
    if k == first then start else Max(start, stream[k - 1].at)
  }

  /** Message `k` comes before a timer that expires at `limit`, or is there already. */
  predicate ComesBy(stream: seq<Timed>, k: nat, now: nat, limit: nat, frameWins: bool)
    requires k < |stream|
  {
    stream[k].at <= now || stream[k].at < limit || (stream[k].at == limit && frameWins)
  }

  class ArrivalEvent {
    var isSet: bool

    constructor ()
      ensures !isSet
    {
      isSet := false;
    }
  }

  /** A state listener. A faulty one raises, and may leave anything in its own replica. */
  class Listener {
    const faulty: bool
    var replica: States

    constructor (faulty: bool, replica: States)
      ensures this.faulty == faulty && this.replica == replica
    {
      this.faulty := faulty;
      this.replica := replica;
    }

    method Notify(key: OutputKey, value: int) returns (raised: bool)
      modifies this
      ensures !faulty ==> !raised && replica == old(replica)[key := value]
    {
      if faulty {
        replica := *;
        raised := *;
      } else {
        replica := replica[key := value];
        raised := false;
      }
    }
  }

  datatype Drained = Drained(sent: bool, until: nat, consumed: nat, seen: set<string>)

  datatype Refreshed = NotConnected | SendFailed | Settled(at: nat)

  class DobissController {
    var dimmers: set<OutputKey>
    var modules: seq<string>
    var states: States
    var listeners: seq<Listener>
    var frameArrival: ArrivalEvent?
    var busOpen: bool
    var outbox: seq<Frame>

    /** Every listener that does not raise holds exactly the cache. */
    ghost predicate InSync()
      reads this, listeners
    {
      forall l :: l in listeners && !l.faulty ==> l.replica == states
    }

    constructor (dimmers: set<OutputKey>, modules: seq<string>)
      ensures this.dimmers == dimmers && this.modules == modules
      ensures states == map[] && listeners == [] && frameArrival == null && !busOpen && outbox == []
    {
      this.dimmers, this.modules := dimmers, modules;
      states, listeners, frameArrival, busOpen, outbox := map[], [], null, false, [];
    }

    method AddListener(l: Listener)
      modifies this`listeners
      ensures listeners == old(listeners) + [l]
      ensures old(InSync()) && l.replica == states ==> InSync()
    {
      listeners := listeners + [l];
    }

    /** `_apply_local`: write the cache, then tell a copy of the listener list; a listener that
        raises stops neither the others nor the write. */
    method ApplyLocal(key: OutputKey, value: int)
      modifies this`states, listeners
      ensures states == old(states)[key := value]
      ensures forall l :: l in listeners && !l.faulty ==> l.replica == old(l.replica)[key := value]
      ensures old(InSync()) ==> InSync()
    {
      states := states[key := value];
      for i := 0 to |listeners|
        invariant states == old(states)[key := value] && listeners == old(listeners)
        invariant forall l :: l in listeners && !l.faulty ==>
                    l.replica == if l in listeners[..i] then old(l.replica)[key := value] else old(l.replica)
      {
        var _ := listeners[i].Notify(key, value);
      }
    }

    /** `_ingest_message`: signal the arrival before the state-match filter, then write on change. */
    method IngestMessage(msg: Message) returns (update: Option<StateUpdate>)
      modifies this`states, listeners, frameArrival
      ensures update == Accepted(modules, msg)
      ensures states == Step(modules, Run(old(states), []), Received(msg)).states
      ensures frameArrival != null ==> frameArrival.isSet == (old(frameArrival.isSet) || update.Some?)
      ensures old(InSync()) ==> InSync()
    {
      update := None;
      if msg.arbitrationId == CAN_ID_TX_STATE {
        return;
      }
      if msg.arbitrationId != CAN_ID_RX_STATE {
        return;
      }
      var parsed := ParseStateFrame(msg.data);
      if parsed.None? || parsed.value.letter !in modules {
        return;
      }
      if parsed.value.output < 1 || parsed.value.output > OUTPUTS_PER_MODULE {
        return;
      }
      if frameArrival != null {
        frameArrival.isSet := true;
      }
      update := parsed;
      var key := (parsed.value.letter, parsed.value.output);
      if Get(states, key) == Some(parsed.value.state) {
        return;
      }
      ApplyLocal(key, parsed.value.state);
    }

    /** Ingesting message `k` extends the run over the first `k` messages by one. */
    method IngestNext(stream: seq<Timed>, k: nat, ghost start: States) returns (update: Option<StateUpdate>)
      requires k < |stream| && states == StatesAfter(modules, start, stream, k)
      modifies this`states, listeners, frameArrival
      ensures update == Accepted(modules, stream[k].msg)
      ensures states == StatesAfter(modules, start, stream, k + 1)
      ensures frameArrival != null ==> frameArrival.isSet == (old(frameArrival.isSet) || update.Some?)
      ensures old(InSync()) ==> InSync()
    {
      update := IngestMessage(stream[k].msg);
    }

    // -------------------------------------------------------------------------------------------
    // Commands. `delivered` is what the executor call to `bus.send` turns out to do.
    // -------------------------------------------------------------------------------------------

    /** A command either sends its one frame and makes its local writes, or changes nothing. */
    twostate predicate Performed(c: Command, delivered: bool, ok: bool)
      reads this, listeners
    {
      && ok == (old(busOpen) && CommandFrame(old(dimmers), c).Built? && delivered)
      && states == (if ok then Replay(old(states), LocalWrites(old(dimmers), c)) else old(states))
      && outbox == old(outbox) + (if ok then [CommandFrame(old(dimmers), c).frame] else [])
      && (old(InSync()) ==> InSync())
    }

    method SendFrame(frame: Frame, delivered: bool) returns (ok: bool)
      modifies this`outbox
      ensures ok == (busOpen && delivered)
      ensures outbox == old(outbox) + (if ok then [frame] else [])
    {
      ok := busOpen && delivered;
      if ok {
        outbox := outbox + [frame];
      }
    }

    /** `_send_state`: a frame that cannot be built raises before anything is sent. */
    method SendState(key: OutputKey, value: int, delivered: bool) returns (ok: bool)
      modifies this`outbox
      ensures ok == (busOpen && BuildStateFrame(key.0, key.1, value).Built? && delivered)
      ensures outbox == old(outbox) + (if ok then [BuildStateFrame(key.0, key.1, value).frame] else [])
    {
      var built := BuildStateFrame(key.0, key.1, value);
      if !built.Built? {
        return false;
      }
      ok := SendFrame(built.frame, delivered);
    }

    method AsyncTurnOn(key: OutputKey, brightness: Option<int>, delivered: bool) returns (ok: bool)
      modifies this`states, this`outbox, listeners
      ensures Performed(TurnOn(key, brightness), delivered, ok)
      ensures ok ==>
                var tx := if key !in dimmers then 1 else if brightness.Some? then Brightness.HaToCan(brightness.value) else 144;
                && outbox == old(outbox) + [BuildStateFrame(key.0, key.1, tx).frame]
                && states == old(states)[key := if key in dimmers then Brightness.CanTxToRx(tx) else 1]
    {
      var value := 1;
      if key in dimmers {
        if brightness.Some? {
          value := Brightness.HaToCan(brightness.value);
        } else {
          value := Brightness.MAX_CAN_BRIGHTNESS_TX;
        }
      }
      ok := SendState(key, value, delivered);
      if ok {
        ApplyLocal(key, if key in dimmers then Brightness.CanTxToRx(value) else value);
      }
    }

    method AsyncTurnOff(key: OutputKey, delivered: bool) returns (ok: bool)
      modifies this`states, this`outbox, listeners
      ensures Performed(TurnOff(key), delivered, ok)
      ensures ok ==>
                && outbox == old(outbox) + [BuildStateFrame(key.0, key.1, 0).frame]
                && states == old(states)[key := 0]
    {
      ok := SendState(key, 0, delivered);
      if ok {
        ApplyLocal(key, 0);
      }
    }

    method AsyncOpenShutter(s: ShutterConfig, delivered: bool) returns (ok: bool)
      modifies this`states, this`outbox, listeners
      ensures Performed(OpenShutter(s), delivered, ok)
      ensures ok ==>
                && outbox == old(outbox) + [BuildStateFrame(s.letter, s.upOutput, 1).frame]
                && states == old(states)[(s.letter, s.upOutput) := 1][(s.letter, s.downOutput) := 0]
    {
      ok := SendState(s.Up(), 1, delivered);
      if ok {
        ApplyLocal(s.Up(), 1);
        ApplyLocal(s.Down(), 0);
      }
      ReplayTwo(old(states), Assign(s.Up(), 1), Assign(s.Down(), 0));
    }

    method AsyncCloseShutter(s: ShutterConfig, delivered: bool) returns (ok: bool)
      modifies this`states, this`outbox, listeners
      ensures Performed(CloseShutter(s), delivered, ok)
      ensures ok ==>
                && outbox == old(outbox) + [BuildStateFrame(s.letter, s.downOutput, 1).frame]
                && states == old(states)[(s.letter, s.downOutput) := 1][(s.letter, s.upOutput) := 0]
    {
      ok := SendState(s.Down(), 1, delivered);
      if ok {
        ApplyLocal(s.Down(), 1);
        ApplyLocal(s.Up(), 0);
      }
      ReplayTwo(old(states), Assign(s.Down(), 1), Assign(s.Up(), 0));
    }

    method AsyncStopShutter(s: ShutterConfig, delivered: bool) returns (ok: bool)
      modifies this`states, this`outbox, listeners
      ensures Performed(StopShutter(s), delivered, ok)
      ensures ok ==>
                && outbox == old(outbox) + [BuildStateFrame(s.letter, s.upOutput, 0).frame]
                && states == old(states)[(s.letter, s.upOutput) := 0][(s.letter, s.downOutput) := 0]
    {
      ok := SendState(s.Up(), 0, delivered);
      if ok {
        ApplyLocal(s.Up(), 0);
        ApplyLocal(s.Down(), 0);
      }
      ReplayTwo(old(states), Assign(s.Up(), 0), Assign(s.Down(), 0));
    }

    // -------------------------------------------------------------------------------------------
    // Discovery, read loop, refresh
    // -------------------------------------------------------------------------------------------

    /** `_collect_initial_state`, from the moment `start` at which the dump request has been sent. */
    method CollectInitialState(start: nat, stream: seq<Timed>, frameWins: bool, delivered: bool)
      returns (r: Drained)
      requires Ordered(stream)
      modifies this`states, this`outbox, listeners, frameArrival
      ensures r.sent == (busOpen && delivered)
      ensures !r.sent ==> r.consumed == 0
      ensures outbox == old(outbox) + if r.sent then [DUMP_REQUEST_FRAME] else []
      // What was taken off the stream is a prefix, ingested in order; the rest is left for the read loop.
      ensures r.consumed <= |stream|
      ensures states == StatesAfter(modules, old(states), stream, r.consumed)
      ensures r.seen == SeenAfter(modules, stream, r.consumed)
      ensures r.sent ==> DrainEnds(modules, stream, start, r, frameWins)
      ensures r.sent ==> forall j :: 0 <= j < r.consumed ==> DrainGoesOn(modules, stream, start, j, frameWins)
      ensures old(InSync()) ==> InSync()
    {
      r := Drained(false, start, 0, {});
      var ok := SendFrame(DUMP_REQUEST_FRAME, delivered);
      if ok {
        r := Drain(start, stream, frameWins);
      }
    }

    /** The loop of `_collect_initial_state`. */
    method Drain(start: nat, stream: seq<Timed>, frameWins: bool) returns (r: Drained)
      requires Ordered(stream)
      modifies this`states, listeners, frameArrival
      ensures r.sent && r.consumed <= |stream|
      ensures states == StatesAfter(modules, old(states), stream, r.consumed)
      ensures r.seen == SeenAfter(modules, stream, r.consumed)
      ensures DrainEnds(modules, stream, start, r, frameWins)
      ensures forall j :: 0 <= j < r.consumed ==> DrainGoesOn(modules, stream, start, j, frameWins)
      ensures old(InSync()) ==> InSync()
    {
      var configured := set m | m in modules;
      var deadline := start + DISCOVERY_TIMEOUT_MS;
      var seen: set<string> := {};
      var now, k := start, 0;
      while now < deadline
        invariant 0 <= k <= |stream| && now == WaitFrom(stream, 0, k, start) <= deadline
        invariant states == StatesAfter(modules, old(states), stream, k)
        invariant seen == SeenAfter(modules, stream, k)
        invariant forall j :: 0 <= j < k ==> DrainGoesOn(modules, stream, start, j, frameWins)
        invariant old(InSync()) ==> InSync()
        decreases |stream| - k
      {
        var remaining := deadline - now;
        var window := Min(if configured <= seen then DUMP_DRAIN_IDLE_MS else remaining, remaining);
        if k == |stream| || !ComesBy(stream, k, now, now + window, frameWins) {
          now := now + window;
          break;
        }
        var parsed := IngestNext(stream, k, old(states));
        if parsed.Some? && parsed.value.letter in configured {
          seen := seen + {parsed.value.letter};
        }
        now := Max(now, stream[k].at);
        k := k + 1;
      }
      r := Drained(true, now, k, seen);
    }

    /** `_read_frames` on the messages from `first` on: ingest until the bus has been silent for
        the liveness timeout. */
    method ReadFrames(first: nat, start: nat, stream: seq<Timed>, frameWins: bool, ghost origin: States)
      returns (consumed: nat, failedAt: nat)
      requires Ordered(stream) && first <= |stream|
      requires states == StatesAfter(modules, origin, stream, first)
      modifies this`states, listeners, frameArrival
      ensures first <= consumed <= |stream|
      ensures failedAt == WaitFrom(stream, first, consumed, start) + LIVENESS_TIMEOUT_MS
      ensures states == StatesAfter(modules, origin, stream, consumed)
      ensures consumed < |stream| ==> (failedAt < stream[consumed].at || (failedAt == stream[consumed].at && !frameWins))
      ensures forall j :: first <= j < consumed ==>
                var limit := WaitFrom(stream, first, j, start) + LIVENESS_TIMEOUT_MS;
                stream[j].at < limit || (stream[j].at == limit && frameWins)
      ensures old(InSync()) ==> InSync()
    {
      var now := start;
      consumed := first;
      while consumed < |stream| && ComesBy(stream, consumed, now, now + LIVENESS_TIMEOUT_MS, frameWins)
        invariant first <= consumed <= |stream| && now == WaitFrom(stream, first, consumed, start)
        invariant states == StatesAfter(modules, origin, stream, consumed)
        invariant forall j :: first <= j < consumed ==>
                    var limit := WaitFrom(stream, first, j, start) + LIVENESS_TIMEOUT_MS;
                    stream[j].at < limit || (stream[j].at == limit && frameWins)
        invariant old(InSync()) ==> InSync()
      {
        var _ := IngestNext(stream, consumed, origin);
        now := Max(now, stream[consumed].at);
        consumed := consumed + 1;
      }
      failedAt := now + LIVENESS_TIMEOUT_MS;
    }

    /** Discovery and then the read loop on the same reader: whatever the discovery left is read
        next, up to the first long silence, so the cache is that of one run over the stream, and
        would be the same for any other handoff point. */
    method DiscoverThenRead(start: nat, stream: seq<Timed>, frameWins: bool)
      returns (drained: Drained, consumed: nat, failedAt: nat)
      requires busOpen && Ordered(stream)
      modifies this`states, this`outbox, listeners, frameArrival
      ensures drained.sent && outbox == old(outbox) + [DUMP_REQUEST_FRAME]
      ensures drained.consumed <= consumed <= |stream|
      ensures DrainEnds(modules, stream, start, drained, frameWins)
      ensures forall j :: 0 <= j < drained.consumed ==> DrainGoesOn(modules, stream, start, j, frameWins)
      ensures failedAt == WaitFrom(stream, drained.consumed, consumed, drained.until) + LIVENESS_TIMEOUT_MS
      ensures consumed < |stream| ==> (failedAt < stream[consumed].at || (failedAt == stream[consumed].at && !frameWins))
      ensures var read := Msgs(stream)[..consumed];
              && states == RunAll(modules, old(states), Frames(read)).states
              && forall other: nat :: other <= consumed ==>
                   states == RunAll(modules, RunAll(modules, old(states), Frames(read[..other])).states,
                                    Frames(read[other..])).states
      ensures old(InSync()) ==> InSync()
    {
      drained := CollectInitialState(start, stream, frameWins, true);
      consumed, failedAt := ReadFrames(drained.consumed, drained.until, stream, frameWins, old(states));
      StatesAfterIsRun(modules, old(states), stream, consumed);
      forall other: nat | other <= consumed
        ensures var read := Msgs(stream)[..consumed];
                states == RunAll(modules, RunAll(modules, old(states), Frames(read[..other])).states,
                                 Frames(read[other..])).states
      {
        HandoffIrrelevant(modules, old(states), Msgs(stream)[..consumed], other);
      }
    }

    /** The event loop hands frames to the read loop until one sets the arrival event or the next
        one is not in time. */
    method DeliverUntilArrival(stream: seq<Timed>, k0: nat, limit: nat, frameWins: bool, ghost start: States)
      returns (k: nat)
      requires k0 <= |stream| && Ordered(stream)
      requires frameArrival != null && !frameArrival.isSet
      requires states == StatesAfter(modules, start, stream, k0)
      modifies this`states, listeners, frameArrival
      ensures k0 <= k <= |stream|
      ensures states == StatesAfter(modules, start, stream, k)
      ensures var ts := AcceptedTimes(modules, stream, k0);
              && (frameArrival.isSet <==> InTime(ts, limit, frameWins))
              && (frameArrival.isSet ==> k > k0 && ts == Cons(stream[k - 1].at, AcceptedTimes(modules, stream, k)))
      ensures k < |stream| ==> stream[k].at >= if frameArrival.isSet then stream[k - 1].at else limit
      ensures old(InSync()) ==> InSync()
    {
      k := k0;
      ghost var ts := AcceptedTimes(modules, stream, k0);
      while k < |stream| && !frameArrival.isSet && (stream[k].at < limit || (stream[k].at == limit && frameWins))
        invariant k0 <= k <= |stream|
        invariant states == StatesAfter(modules, start, stream, k)
        invariant !frameArrival.isSet ==> ts == AcceptedTimes(modules, stream, k)
        invariant frameArrival.isSet ==>
                    && k > k0 && ts == Cons(stream[k - 1].at, AcceptedTimes(modules, stream, k))
                    && (stream[k - 1].at < limit || (stream[k - 1].at == limit && frameWins))
        invariant old(InSync()) ==> InSync()
      {
        var _ := IngestNext(stream, k, start);
        k := k + 1;
      }
      if k < |stream| {
        AcceptedTimesFrom(modules, stream, k, stream[k].at);
      }
    }

    /** The frames that come in while the dump request is being sent. */
    method DeliverBefore(stream: seq<Timed>, sent: nat, ghost start: States) returns (k: nat)
      requires Ordered(stream)
      requires frameArrival != null && !frameArrival.isSet && states == start
      modifies this`states, listeners, frameArrival
      ensures k <= |stream|
      ensures states == StatesAfter(modules, start, stream, k)
      ensures var ts := AcceptedTimes(modules, stream, 0);
              && AcceptedTimes(modules, stream, k) == Late(ts, sent)
              && (frameArrival.isSet <==> ts.Cons? && ts.at < sent)
      ensures k < |stream| ==> stream[k].at >= sent
      ensures old(InSync()) ==> InSync()
    {
      k := 0;
      ghost var ts := AcceptedTimes(modules, stream, 0);
      while k < |stream| && stream[k].at < sent
        invariant 0 <= k <= |stream|
        invariant states == StatesAfter(modules, start, stream, k)
        invariant Late(AcceptedTimes(modules, stream, k), sent) == Late(ts, sent)
        invariant if frameArrival.isSet then ts.Cons? && ts.at < sent else ts == AcceptedTimes(modules, stream, k)
        invariant old(InSync()) ==> InSync()
      {
        var _ := IngestNext(stream, k, start);
        k := k + 1;
      }
      AcceptedTimesFrom(modules, stream, k, sent);
    }

    /** `async_refresh_and_settle` while it holds the lock. `sent` is when the request has gone out
        (or failed); the frames of `stream` are handed to the read loop at their times meanwhile.
        The return time is a function of the accepted arrival times alone. */
    method RefreshAndSettle(
      stream: seq<Timed>, sent: nat, idle: nat, timeout: nat, frameWins: bool, delivered: bool)
      returns (r: Refreshed, consumed: nat)
      requires Ordered(stream) && frameArrival == null
      modifies this`states, this`outbox, this`frameArrival, listeners
      ensures frameArrival == null
      ensures r.NotConnected? <==> !busOpen
      ensures r.SendFailed? <==> busOpen && !delivered
      ensures outbox == old(outbox) + if r.Settled? then [DUMP_REQUEST_FRAME] else []
      ensures r.Settled? ==>
                r.at == RefreshReturn(AcceptedTimes(modules, stream, 0), sent, timeout, idle, frameWins)
      // Every frame that came before the return has been read.
      ensures consumed <= |stream| && (r.Settled? && consumed < |stream| ==> r.at <= stream[consumed].at)
      ensures states == StatesAfter(modules, old(states), stream, consumed)
      ensures old(InSync()) ==> InSync()
    {
      consumed := 0;
      if !busOpen {
        return NotConnected, 0;
      }
      frameArrival := new ArrivalEvent();
      var ok := SendFrame(DUMP_REQUEST_FRAME, delivered);
      var responded, now, k := AwaitResponse(stream, sent, timeout, frameWins, ok);
      if !ok {
        frameArrival := null;
        return SendFailed, k;
      }
      var at := now;
      if responded {
        at, k := SettleLoop(stream, k, now, sent + timeout, idle, frameWins, old(states));
      }
      frameArrival := null;
      r, consumed := Settled(at), k;
    }

    /** The frames up to the first response, or up to the deadline; if the send failed, up to then. */
    method AwaitResponse(stream: seq<Timed>, sent: nat, timeout: nat, frameWins: bool, ok: bool)
      returns (responded: bool, now: nat, k: nat)
      requires Ordered(stream)
      requires frameArrival != null && !frameArrival.isSet
      modifies this`states, listeners, frameArrival
      ensures k <= |stream| && states == StatesAfter(modules, old(states), stream, k)
      ensures ok ==>
                var ts := AcceptedTimes(modules, stream, 0);
                FirstResponse(ts, sent, timeout, frameWins) ==
                if responded then Some((now, AcceptedTimes(modules, stream, k))) else None
      ensures !responded ==> now == sent + timeout
      ensures ok && k < |stream| ==> now <= stream[k].at
      ensures old(InSync()) ==> InSync()
    {
      k := DeliverBefore(stream, sent, old(states));
      now := sent;
      responded := frameArrival.isSet;
      if ok && !responded {
        k := DeliverUntilArrival(stream, k, sent + timeout, frameWins, old(states));
        responded := frameArrival.isSet;
        if responded {
          now := stream[k - 1].at;
        }
      }
      if !responded {
        now := sent + timeout;
      }
    }

    /** The loop of `_refresh_and_settle_locked` after the first response. */
    method SettleLoop(
      stream: seq<Timed>, k0: nat, start: nat, deadline: nat, idle: nat, frameWins: bool, ghost origin: States)
      returns (at: nat, k: nat)
      requires Ordered(stream) && k0 <= |stream| && frameArrival != null
      requires states == StatesAfter(modules, origin, stream, k0)
      requires k0 < |stream| ==> start <= stream[k0].at
      modifies this`states, listeners, frameArrival
      ensures k < |stream| ==> at <= stream[k].at
      ensures at == Settle(AcceptedTimes(modules, stream, k0), start, deadline, idle, frameWins)
      ensures k0 <= k <= |stream| && states == StatesAfter(modules, origin, stream, k)
      ensures old(InSync()) ==> InSync()
    {
      var now: nat := start;
      k := k0;
      while true
        invariant k0 <= k <= |stream|
        invariant states == StatesAfter(modules, origin, stream, k)
        invariant k < |stream| ==> now <= stream[k].at
        invariant Settle(AcceptedTimes(modules, stream, k0), start, deadline, idle, frameWins)
                  == Settle(AcceptedTimes(modules, stream, k), now, deadline, idle, frameWins)
        invariant old(InSync()) ==> InSync()
        decreases |stream| - k
      {
        frameArrival.isSet := false;
        if deadline <= now {
          return now, k;
        }
        var limit := now + Min(idle, deadline - now);
        k := DeliverUntilArrival(stream, k, limit, frameWins, origin);
        if !frameArrival.isSet {
          return limit, k;
        }
        now := stream[k - 1].at;
      }
    }
  }

  /** How a discovery ends: once every configured module has been seen, 150 ms after the last message
      or at the deadline, whichever is first; otherwise at the deadline. The next message was too late. */
  ghost predicate DrainEnds(modules: seq<string>, stream: seq<Timed>, start: nat, r: Drained, frameWins: bool)
    requires r.consumed <= |stream|
  {
    var last, deadline := WaitFrom(stream, 0, r.consumed, start), start + DISCOVERY_TIMEOUT_MS;
    && r.until == (if (set m | m in modules) <= SeenAfter(modules, stream, r.consumed)
                   then Min(deadline, last + DUMP_DRAIN_IDLE_MS) else deadline)
    && (r.consumed < |stream| && last < deadline ==>
          r.until < stream[r.consumed].at || (r.until == stream[r.consumed].at && !frameWins))
  }

  /** What keeps a discovery going at message `j`: it is not past the deadline, and the message is not
      too late for the window that the modules seen so far call for. */
  ghost predicate DrainGoesOn(modules: seq<string>, stream: seq<Timed>, start: nat, j: nat, frameWins: bool)
    requires j < |stream|
  {
    var from, deadline := WaitFrom(stream, 0, j, start), start + DISCOVERY_TIMEOUT_MS;
    && from < deadline && (stream[j].at < deadline || (stream[j].at == deadline && frameWins))
    && ((set m | m in modules) <= SeenAfter(modules, stream, j) ==>
          (stream[j].at < from + DUMP_DRAIN_IDLE_MS || (stream[j].at == from + DUMP_DRAIN_IDLE_MS && frameWins)))
  }

  /** With nothing configured or nothing more to come, discovery ends after one idle window. */
  lemma QuietBusEndsEarly(modules: seq<string>, stream: seq<Timed>, start: nat, r: Drained, frameWins: bool)
    requires r.consumed == |stream| && DrainEnds(modules, stream, start, r, frameWins)
    requires forall m :: m in modules ==> m in SeenAfter(modules, stream, |stream|)
    ensures stream == [] ==> r.until == start + 150
    ensures stream != [] && start <= stream[|stream| - 1].at <= start + 14_850 ==> r.until == stream[|stream| - 1].at + 150
  {
    assert (set m | m in modules) <= SeenAfter(modules, stream, r.consumed);
  }

  /** Two refreshes that see responses at the same times return at the same time, whatever states
      those responses carry and whatever the cache holds. */
  lemma RefreshIgnoresStates(
      modules1: seq<string>, modules2: seq<string>, stream1: seq<Timed>, stream2: seq<Timed>,
      sent: nat, timeout: nat, idle: nat, frameWins: bool)
    requires |stream1| == |stream2|
    requires forall i :: 0 <= i < |stream1| ==>
               && stream1[i].at == stream2[i].at
               && Accepted(modules1, stream1[i].msg).Some? == Accepted(modules2, stream2[i].msg).Some?
    ensures RefreshReturn(AcceptedTimes(modules1, stream1, 0), sent, timeout, idle, frameWins)
            == RefreshReturn(AcceptedTimes(modules2, stream2, 0), sent, timeout, idle, frameWins)
  {
    SameTimes(modules1, modules2, stream1, stream2, 0);
  }

  lemma {:induction false} SameTimes(
      modules1: seq<string>, modules2: seq<string>, stream1: seq<Timed>, stream2: seq<Timed>, k: nat)
    requires k <= |stream1| == |stream2|
    requires forall i :: 0 <= i < |stream1| ==>
               && stream1[i].at == stream2[i].at
               && Accepted(modules1, stream1[i].msg).Some? == Accepted(modules2, stream2[i].msg).Some?
    ensures AcceptedTimes(modules1, stream1, k) == AcceptedTimes(modules2, stream2, k)
    decreases |stream1| - k
  {
    if k < |stream1| {
      SameTimes(modules1, modules2, stream1, stream2, k + 1);
    }
  }
}
