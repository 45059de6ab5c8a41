/** The state cache as a value: which frames reach it, what one event does to it, and what whole
    runs of events leave in it. `Controller.dfy` holds the object that is updated in place. */
module Cache {
  import opened Wrappers
  import opened Protocol
  import Brightness

  type OutputKey = (string, int)
  type States = map<OutputKey, int>

  datatype Message = Message(arbitrationId: int, data: seq<Byte>)

  /** A cache assignment, and at the same time a listener notification. */
  datatype Assign = Assign(key: OutputKey, value: int)

  function Get(s: States, key: OutputKey): Option<int> {
    if key in s then Some(s[key]) else None
  }

  /** The frames `_ingest_message` lets through to the cache, before it looks at the cache. */
  function Accepted(modules: seq<string>, msg: Message): Option<StateUpdate> {
    if msg.arbitrationId == CAN_ID_TX_STATE then None
    else if msg.arbitrationId != CAN_ID_RX_STATE then None
    else
      var update := ParseStateFrame(msg.data);
      if update.None? || update.value.letter !in modules then None
      else if update.value.output < 1 || update.value.output > OUTPUTS_PER_MODULE then None
      else update
  }

  /** Exactly the state broadcasts of configured modules and outputs 1..12 get through; what our own
      writes look like when they are looped back does not. */
  lemma AcceptedIff(modules: seq<string>, msg: Message)
    ensures var a := Accepted(modules, msg);
            && (a.Some? <==>
                  && msg.arbitrationId == 0x100FF00 && |msg.data| >= 4
                  && msg.data[1] < 128 && [msg.data[1] as char] in modules
                  && msg.data[2] / 16 * 10 + msg.data[2] % 16 < 12)
            && (a.Some? ==>
                  a.value == StateUpdate([msg.data[1] as char], msg.data[2] / 16 * 10 + msg.data[2] % 16 + 1, msg.data[3]))
  {
  }

  datatype Event = Received(msg: Message) | Wrote(write: Assign)

  /** The assignment an event asks for, whatever the cache holds. */
  function Carries(modules: seq<string>, e: Event): Option<Assign> {
    match e
    case Wrote(write) => Some(write)
    case Received(msg) =>
      var update := Accepted(modules, msg);
      if update.None? then None
      else Some(Assign((update.value.letter, update.value.output), update.value.state))
  }

  datatype Run = Run(states: States, notes: seq<Assign>)

  /** One event on the skip-if-unchanged cache: local writes always notify, frames only on change. */
  function Step(modules: seq<string>, r: Run, e: Event): Run {
    var c := Carries(modules, e);
    if c.None? || (e.Received? && Get(r.states, c.value.key) == Some(c.value.value)) then r
    else Run(r.states[c.value.key := c.value.value], r.notes + [c.value])
  }

  function RunAll(modules: seq<string>, start: States, events: seq<Event>): Run {
    if events == [] then Run(start, [])
    else Step(modules, RunAll(modules, start, events[..|events| - 1]), events[|events| - 1])
  }

  /** Independent reading of a run: the last event that carries `key`, searched from the end. */
  function LastValue(modules: seq<string>, events: seq<Event>, key: OutputKey): Option<int> {
    if events == [] then None
    else
      var c := Carries(modules, events[|events| - 1]);
      if c.Some? && c.value.key == key then Some(c.value.value)
      else LastValue(modules, events[..|events| - 1], key)
  }

  function Replay(start: States, notes: seq<Assign>): States {
    if notes == [] then start
    else
      var last := notes[|notes| - 1];
      Replay(start, notes[..|notes| - 1])[last.key := last.value]
  }

  lemma ReplayTwo(start: States, a: Assign, b: Assign)
    ensures Replay(start, [a, b]) == start[a.key := a.value][b.key := b.value]
  {
    assert [a, b][..1] == [a] && [a][..0] == [];
    assert Replay(start, [a]) == start[a.key := a.value];
  }

  /** The filtered cache refines the unfiltered one: it holds the last write of every key. */
  lemma {:induction false} CacheIsLastWrite(modules: seq<string>, start: States, events: seq<Event>, key: OutputKey)
    ensures var last := LastValue(modules, events, key);
            Get(RunAll(modules, start, events).states, key) == if last.Some? then last else Get(start, key)
  {
    if events != [] {
      CacheIsLastWrite(modules, start, events[..|events| - 1], key);
    }
  }

  lemma {:induction false} RunAppend(modules: seq<string>, start: States, a: seq<Event>, b: seq<Event>)
    ensures var first := RunAll(modules, start, a);
            var second := RunAll(modules, first.states, b);
            RunAll(modules, start, a + b) == Run(second.states, first.notes + second.notes)
  {
    if b == [] {
      assert a + b == a;
    } else {
      var b' := b[..|b| - 1];
      RunAppend(modules, start, a, b');
      assert (a + b)[..|a + b| - 1] == a + b';
    }
  }

  lemma {:induction false} ReplayIsCache(modules: seq<string>, start: States, events: seq<Event>)
    ensures var r := RunAll(modules, start, events);
            Replay(start, r.notes) == r.states
  {
    if events != [] {
      var before := RunAll(modules, start, events[..|events| - 1]);
      ReplayIsCache(modules, start, events[..|events| - 1]);
      var after := RunAll(modules, start, events);
      if after != before {
        assert after.notes[..|after.notes| - 1] == before.notes;
      }
    }
  }

  /** A listener that joins after any prefix, copies the cache and replays what it is told from
      then on holds the cache at every later moment. */
  lemma LateListenerAgrees(modules: seq<string>, start: States, before: seq<Event>, after: seq<Event>)
    ensures var joined := RunAll(modules, start, before);
            var now := RunAll(modules, start, before + after);
            && joined.notes <= now.notes
            && Replay(joined.states, now.notes[|joined.notes|..]) == now.states
  {
    var joined := RunAll(modules, start, before);
    RunAppend(modules, start, before, after);
    ReplayIsCache(modules, joined.states, after);
    var tail := RunAll(modules, joined.states, after).notes;
    assert (joined.notes + tail)[|joined.notes|..] == tail;
  }

  /** A frame notifies exactly when it changes what the cache holds. */
  lemma FramesNotifyChangesOnly(modules: seq<string>, r: Run, msg: Message)
    ensures var after := Step(modules, r, Received(msg));
            && (after.notes == r.notes <==> after.states == r.states)
            && |r.notes| <= |after.notes| <= |r.notes| + 1
  {
    var after := Step(modules, r, Received(msg));
    if after.notes != r.notes {
      var c := Carries(modules, Received(msg)).value;
      assert Get(after.states, c.key) == Some(c.value) != Get(r.states, c.key);
    }
  }

  /** Frames as events. */
  function Frames(msgs: seq<Message>): seq<Event> {
    seq(|msgs|, i requires 0 <= i < |msgs| => Received(msgs[i]))
  }

  /** Splitting a stream between discovery and the read loop cannot change the final cache, nor
      what listeners were told: for every handoff point. */
  lemma HandoffIrrelevant(modules: seq<string>, start: States, msgs: seq<Message>, handoff: nat)
    requires handoff <= |msgs|
    ensures var discovered := RunAll(modules, start, Frames(msgs[..handoff]));
            var read := RunAll(modules, discovered.states, Frames(msgs[handoff..]));
            RunAll(modules, start, Frames(msgs)) == Run(read.states, discovered.notes + read.notes)
  {
    assert Frames(msgs) == Frames(msgs[..handoff]) + Frames(msgs[handoff..]);
    RunAppend(modules, start, Frames(msgs[..handoff]), Frames(msgs[handoff..]));
  }

  lemma FramesSnoc(msgs: seq<Message>, i: nat)
    requires i < |msgs|
    ensures Frames(msgs[..i + 1]) == Frames(msgs[..i]) + [Received(msgs[i])]
  {
  }

  lemma RunSnoc(modules: seq<string>, start: States, events: seq<Event>, e: Event)
    ensures RunAll(modules, start, events + [e]) == Step(modules, RunAll(modules, start, events), e)
  {
    assert (events + [e])[..|events|] == events;
  }

  // ---------------------------------------------------------------------------------------------
  // Commands
  // ---------------------------------------------------------------------------------------------

  datatype ShutterConfig = ShutterConfig(letter: string, upOutput: int, downOutput: int)
  {
    function Up(): OutputKey { (letter, upOutput) }
    function Down(): OutputKey { (letter, downOutput) }
  }

  datatype Command =
    | TurnOn(key: OutputKey, brightness: Option<int>)
    | TurnOff(key: OutputKey)
    | OpenShutter(shutter: ShutterConfig)
    | CloseShutter(shutter: ShutterConfig)
    | StopShutter(shutter: ShutterConfig)

  /** The TX value `async_turn_on` sends. */
  function OnValue(dimmers: set<OutputKey>, key: OutputKey, brightness: Option<int>): int {
    if key !in dimmers then 1
    else if brightness.Some? then Brightness.HaToCan(brightness.value)
    else Brightness.MAX_CAN_BRIGHTNESS_TX
  }

  /** The one bus write a command sends. */
  function Sent(dimmers: set<OutputKey>, c: Command): Assign {
    match c
    case TurnOn(key, brightness) => Assign(key, OnValue(dimmers, key, brightness))
    case TurnOff(key) => Assign(key, 0)
    case OpenShutter(s) => Assign(s.Up(), 1)
    case CloseShutter(s) => Assign(s.Down(), 1)
    case StopShutter(s) => Assign(s.Up(), 0)
  }

  /** The cache writes a command makes once its send has succeeded. */
  function LocalWrites(dimmers: set<OutputKey>, c: Command): seq<Assign> {
    match c
    case TurnOn(key, brightness) =>
      var value := OnValue(dimmers, key, brightness);
      [Assign(key, if key in dimmers then Brightness.CanTxToRx(value) else value)]
    case TurnOff(key) => [Assign(key, 0)]
    case OpenShutter(s) => [Assign(s.Up(), 1), Assign(s.Down(), 0)]
    case CloseShutter(s) => [Assign(s.Down(), 1), Assign(s.Up(), 0)]
    case StopShutter(s) => [Assign(s.Up(), 0), Assign(s.Down(), 0)]
  }

  function CommandFrame(dimmers: set<OutputKey>, c: Command): BuildResult {
    var w := Sent(dimmers, c);
    BuildStateFrame(w.key.0, w.key.1, w.value)
  }

  /** The device's broadcast of a write: the same module and BCD output byte, and the value on the
      RX scale for a dimmer. Padding and trailing bytes are the device's own. */
  predicate IsEcho(dimmers: set<OutputKey>, key: OutputKey, frame: Frame, echo: Message) {
    && echo.arbitrationId == CAN_ID_RX_STATE
    && |frame.payload| == 4 && |echo.data| >= 4
    && echo.data[1] == frame.payload[1] && echo.data[2] == frame.payload[2]
    && echo.data[3] == if key in dimmers then Brightness.CanTxToRx(frame.payload[3]) else frame.payload[3]
  }

  /** The run after a command's local writes. */
  function Written(modules: seq<string>, r: Run, writes: seq<Assign>): Run {
    if writes == [] then r
    else Step(modules, Written(modules, r, writes[..|writes| - 1]), Wrote(writes[|writes| - 1]))
  }

  /** What a command puts on the bus and what it leaves in the cache, told per command. A write is
      notified even if it changes nothing. */
  lemma CommandEffects(modules: seq<string>, dimmers: set<OutputKey>, c: Command, r: Run)
    ensures var sent, w := Sent(dimmers, c), Written(modules, r, LocalWrites(dimmers, c));
            && w.notes == r.notes + LocalWrites(dimmers, c)
            && w.states == Replay(r.states, LocalWrites(dimmers, c))
            && match c
               case TurnOn(key, ha) =>
                 && sent.key == key && |w.notes| == |r.notes| + 1
                 && (key !in dimmers ==> sent.value == 1 && w.states == r.states[key := 1])
                 && (key in dimmers && ha.None? ==> sent.value == 144 && w.states == r.states[key := 90])
                 && (key in dimmers && ha.Some? ==>
                       exists steps: nat :: w.states == r.states[key := steps * 10] && sent.value == steps * 16
                                         && (steps == 0 <==> ha.value <= 0)
                                         && (15 <= ha.value <= 255 ==> Brightness.Abs(ha.value * 9 - steps * 255) <= 127))
               case TurnOff(key) => sent == Assign(key, 0) && w.states == r.states[key := 0]
               case OpenShutter(s) =>
                 && sent == Assign((s.letter, s.upOutput), 1)
                 && w.states == r.states[(s.letter, s.upOutput) := 1][(s.letter, s.downOutput) := 0]
               case CloseShutter(s) =>
                 && sent == Assign((s.letter, s.downOutput), 1)
                 && w.states == r.states[(s.letter, s.downOutput) := 1][(s.letter, s.upOutput) := 0]
               case StopShutter(s) =>
                 && sent == Assign((s.letter, s.upOutput), 0)
                 && w.states == r.states[(s.letter, s.upOutput) := 0][(s.letter, s.downOutput) := 0]
  {
    var writes := LocalWrites(dimmers, c);
    if |writes| == 1 {
      WriteOne(modules, r, writes[0]);
      assert writes == [writes[0]];
    } else {
      WriteTwo(modules, r, writes[0], writes[1]);
      assert writes == [writes[0], writes[1]];
    }
    if c.TurnOn? {
      TurnOnEffect(dimmers, c.key, c.brightness);
      if c.brightness.Some? {
        var steps := Brightness.WritesAreWholeSteps(c.brightness.value);
        if c.key in dimmers {
          assert Sent(dimmers, c).value == steps * 16 && LocalWrites(dimmers, c)[0].value == steps * 10;
        }
      }
    }
  }

  lemma TurnOnEffect(dimmers: set<OutputKey>, key: OutputKey, ha: Option<int>)
    ensures key !in dimmers ==> LocalWrites(dimmers, TurnOn(key, ha)) == [Assign(key, 1)]
    ensures key in dimmers && ha.None? ==> LocalWrites(dimmers, TurnOn(key, ha)) == [Assign(key, 90)]
  {
    Brightness.StepEcho(9);
  }

  /** An output that has been switched on reads as on, unless a dimmer was asked for no brightness at
      all; one that has been switched off reads as off. */
  lemma SwitchingIsSeen(dimmers: set<OutputKey>, states: States, key: OutputKey, ha: Option<int>)
    ensures var on := Get(Replay(states, LocalWrites(dimmers, TurnOn(key, ha))), key);
            on.Some? && (on.value > 0 <==> key !in dimmers || ha.None? || ha.value > 0)
    ensures Get(Replay(states, LocalWrites(dimmers, TurnOff(key))), key) == Some(0)
  {
    var r, on, off := Run(states, []), LocalWrites(dimmers, TurnOn(key, ha)), LocalWrites(dimmers, TurnOff(key));
    assert on == [on[0]] && off == [off[0]];
    WriteOne([], r, on[0]);
    WriteOne([], r, off[0]);
    TurnOnEffect(dimmers, key, ha);
    if ha.Some? {
      var steps := Brightness.WritesAreWholeSteps(ha.value);
    }
  }

  lemma WriteOne(modules: seq<string>, r: Run, a: Assign)
    ensures Written(modules, r, [a]) == Run(r.states[a.key := a.value], r.notes + [a])
    ensures Replay(r.states, [a]) == r.states[a.key := a.value]
  {
    assert [a][..0] == [];
  }

  lemma WriteTwo(modules: seq<string>, r: Run, a: Assign, b: Assign)
    ensures Written(modules, r, [a, b]) == Run(r.states[a.key := a.value][b.key := b.value], r.notes + [a, b])
    ensures Replay(r.states, [a, b]) == r.states[a.key := a.value][b.key := b.value]
  {
    assert [a, b][..1] == [a];
    WriteOne(modules, r, a);
    ReplayTwo(r.states, a, b);
  }

  /** The echo of our own write, of any command, carries the first of the values just cached; for
      every output in 1..12 of a configured module it changes no cache entry and tells no listener,
      unless a shutter is driven whose two directions are the same output. */
  lemma EchoIsStutter(modules: seq<string>, dimmers: set<OutputKey>, c: Command, r: Run, echo: Message)
    requires Sent(dimmers, c).key.0 in modules && 1 <= Sent(dimmers, c).key.1 <= OUTPUTS_PER_MODULE
    requires CommandFrame(dimmers, c).Built? && IsEcho(dimmers, Sent(dimmers, c).key, CommandFrame(dimmers, c).frame, echo)
    ensures Carries(modules, Received(echo)) == Some(LocalWrites(dimmers, c)[0])
    ensures var written := Written(modules, r, LocalWrites(dimmers, c));
            Step(modules, written, Received(echo)) == written
            <==> !((c.OpenShutter? || c.CloseShutter?) && c.shutter.upOutput == c.shutter.downOutput)
  {
    var w, writes := Sent(dimmers, c), LocalWrites(dimmers, c);
    EchoCarries(modules, dimmers, w, echo);
    assert Brightness.CanTxToRx(1) == 1 && Brightness.CanTxToRx(0) == 0;
    if |writes| == 1 {
      WriteOne(modules, r, writes[0]);
      assert writes == [writes[0]];
    } else {
      WriteTwo(modules, r, writes[0], writes[1]);
      assert writes == [writes[0], writes[1]];
    }
  }

  lemma EchoCarries(modules: seq<string>, dimmers: set<OutputKey>, w: Assign, echo: Message)
    requires w.key.0 in modules && 1 <= w.key.1 <= OUTPUTS_PER_MODULE
    requires BuildStateFrame(w.key.0, w.key.1, w.value).Built?
    requires IsEcho(dimmers, w.key, BuildStateFrame(w.key.0, w.key.1, w.value).frame, echo)
    ensures Carries(modules, Received(echo))
            == Some(Assign(w.key, if w.key in dimmers then Brightness.CanTxToRx(w.value) else w.value))
  {
    ParseInvertsBuild(w.key.0, w.key.1, w.value);
    var payload := BuildStateFrame(w.key.0, w.key.1, w.value).frame.payload;
    assert ParseStateFrame(payload) == Some(StateUpdate(w.key.0, w.key.1, w.value));
    assert ParseStateFrame(echo.data) == Some(StateUpdate(w.key.0, w.key.1, echo.data[3]));
    assert w.key == (w.key.0, w.key.1);
    assert payload[3] == w.value;
  }

  /** Such a write is always encodable: nothing but a failing bus can stop it. */
  lemma ConfiguredWritesAreBuilt(dimmers: set<OutputKey>, c: Command)
    requires c.TurnOn? && c.brightness.Some? ==> c.brightness.value <= 255
    requires Addressable(Sent(dimmers, c).key.0, Sent(dimmers, c).key.1)
    ensures CommandFrame(dimmers, c).Built?
  {
    var w := Sent(dimmers, c);
    ParseInvertsBuild(w.key.0, w.key.1, w.value);
    if c.TurnOn? && c.brightness.Some? {
      var steps := Brightness.WritesAreWholeSteps(c.brightness.value);
    }
  }
}
