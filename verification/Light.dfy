/** The optimistic brightness of a light, and the chain it hangs on: commands in flight, frames from
    the bus, the cache, and the debounced flush to the coordinator. */
module Light {
  import opened Wrappers
  import opened Cache
  import Brightness

  /** `_attr_brightness` and `_optimistic_can_value`. */
  datatype View = View(brightness: Option<int>, canValue: Option<int>)

  const BLANK := View(None, None)

  function Current(states: States, key: OutputKey): int {
    Get(states, key).GetOr(0)
  }

  /** The view once a turn_on has begun. */
  function OnView(dimmable: bool, ha: Option<int>, v: View): View {
    if !dimmable then v
    else if ha.Some? then View(ha, Some(Brightness.CanTxToRx(Brightness.HaToCan(ha.value))))
    else View(Some(255), Some(Brightness.CanTxToRx(Brightness.MAX_CAN_BRIGHTNESS_TX)))
  }

  /** The view after a coordinator update. */
  function Handled(v: View, current: int): View {
    if v.canValue.Some? && current != v.canValue.value then BLANK else v
  }

  /** The brightness the entity reports. */
  function Reported(dimmable: bool, v: View, current: int): Option<int> {
    if !dimmable then None
    else if v.brightness.Some? then v.brightness
    else Some(Brightness.CanToHa(current))
  }

  class DobissLight {
    const key: OutputKey
    var attrBrightness: Option<int>
    var optimisticCanValue: Option<int>

    function Shown(): View
      reads this
    {
      View(attrBrightness, optimisticCanValue)
    }

    constructor (key: OutputKey)
      ensures this.key == key && Shown() == BLANK
    {
      this.key := key;
      attrBrightness, optimisticCanValue := None, None;
    }

    /** `async_turn_on` up to the await of the controller. */
    method BeginTurnOn(dimmable: bool, ha: Option<int>)
      modifies this
      ensures Shown() == OnView(dimmable, ha, old(Shown()))
    {
      if dimmable {
        if ha.Some? {
          attrBrightness := ha;
          optimisticCanValue := Some(Brightness.CanTxToRx(Brightness.HaToCan(ha.value)));
        } else {
          attrBrightness := Some(255);
          optimisticCanValue := Some(Brightness.CanTxToRx(Brightness.MAX_CAN_BRIGHTNESS_TX));
        }
      }
    }

    /** The `except` of `async_turn_on`; a cancellation does not come here. */
    method TurnOnRaised()
      modifies this
      ensures Shown() == BLANK
    {
      attrBrightness := None;
      optimisticCanValue := None;
    }

    /** `async_turn_off` up to the await. */
    method BeginTurnOff()
      modifies this
      ensures Shown() == BLANK
    {
      attrBrightness := None;
      optimisticCanValue := None;
    }

    method HandleCoordinatorUpdate(states: States)
      modifies this
      ensures Shown() == Handled(old(Shown()), Current(states, key))
      ensures Shown() == if old(optimisticCanValue).Some? && Current(states, key) != old(optimisticCanValue).value
                         then View(None, None) else old(Shown())
    {
      if optimisticCanValue.Some? {
        var currentCan := Current(states, key);
        if currentCan != optimisticCanValue.value {
          attrBrightness := None;
          optimisticCanValue := None;
        }
      }
    }
  }

  // ---------------------------------------------------------------------------------------------
  // The whole chain
  // ---------------------------------------------------------------------------------------------

  datatype Config = Config(modules: seq<string>, dimmers: set<OutputKey>)

  /** `inflight` are the commands whose send has not ended. `latest` is the last turn_on begun per
      light. `stray` are the lights whose last turn_on was cancelled in flight, with the brightness it
      asked for, and that have not been notified, switched or failed since. Both only describe the
      history. `data` is the coordinator's snapshot, `pending` an armed debounce timer. */
  datatype System = System(
    states: States, views: map<OutputKey, View>, inflight: map<nat, Command>, nextId: nat,
    latest: map<OutputKey, nat>, stray: map<OutputKey, Option<int>>, pending: bool, data: States)

  datatype Happening =
    | Begin(c: Command)
    | Complete(id: nat)
    | Fail(id: nat)
    | CancelSend(id: nat)
    | Arrive(msg: Message)
    | Flush
    | Publish

  /** Right after setup: the snapshot is the cache, the lights are blank. */
  function AfterSetup(states: States, lights: set<OutputKey>): System {
    System(states, map k | k in lights :: BLANK, map[], 0, map[], map[], false, states)
  }

  /** A light sets its pair: whatever a cancelled turn_on left there is gone. */
  function SetView(s: System, key: OutputKey, v: View): (r: System)
    ensures r.views.Keys == s.views.Keys
  {
    if key in s.views then s.(views := s.views[key := v], stray := s.stray - {key}) else s
  }

  /** The snapshot goes out and every light looks at the cache. */
  function Notify(s: System): (r: System)
    ensures r.views.Keys == s.views.Keys
  {
    s.(data := s.states, stray := map[],
       views := map k | k in s.views :: Handled(s.views[k], Current(s.states, k)))
  }

  /** The light still shows the pair of this turn_on. */
  predicate Shows(s: System, c: Command, id: nat) {
    && c.TurnOn? && c.key in s.latest && s.latest[c.key] == id
    && c.key in s.views && s.views[c.key] != BLANK
  }

  /** A command has been issued; its send is under way. */
  function Begun(cfg: Config, s: System, c: Command): System {
    var s' := s.(inflight := s.inflight[s.nextId := c], nextId := s.nextId + 1);
    match c
    case TurnOn(key, ha) =>
      if key !in s.views then s'
      else SetView(s', key, OnView(key in cfg.dimmers, ha, s.views[key])).(latest := s.latest[key := s.nextId])
    case TurnOff(key) => SetView(s', key, BLANK)
    case _ => s'
  }

  /** The send has succeeded: the local writes are made. */
  function Completed(cfg: Config, s: System, id: nat): System {
    if id !in s.inflight then s
    else s.(states := Replay(s.states, LocalWrites(cfg.dimmers, s.inflight[id])),
            inflight := s.inflight - {id}, pending := true)
  }

  /** The send has raised. */
  function Failed(s: System, id: nat): System {
    if id !in s.inflight then s
    else
      var s' := s.(inflight := s.inflight - {id});
      if s.inflight[id].TurnOn? then SetView(s', s.inflight[id].key, BLANK) else s'
  }

  /** The caller was cancelled while it waited for the send. */
  function Cancelled(s: System, id: nat): System {
    if id !in s.inflight then s
    else
      var c := s.inflight[id];
      var s' := s.(inflight := s.inflight - {id});
      if Shows(s, c, id) then s'.(stray := s.stray[c.key := c.brightness]) else s'
  }

  function Arrived(cfg: Config, s: System, msg: Message): System {
    var r := Step(cfg.modules, Run(s.states, []), Received(msg));
    s.(states := r.states, pending := s.pending || r.notes != [])
  }

  function Flushed(s: System): System {
    if s.pending then Notify(s).(pending := false) else s
  }

  function Advance(cfg: Config, s: System, h: Happening): System {
    match h
    case Begin(c) => Begun(cfg, s, c)
    case Complete(id) => Completed(cfg, s, id)
    case Fail(id) => Failed(s, id)
    case CancelSend(id) => Cancelled(s, id)
    case Arrive(msg) => Arrived(cfg, s, msg)
    case Flush => Flushed(s)
    case Publish => Notify(s)
  }

  function RunChain(cfg: Config, start: System, hs: seq<Happening>): System {
    if hs == [] then start
    else Advance(cfg, RunChain(cfg, start, hs[..|hs| - 1]), hs[|hs| - 1])
  }

  /** The brightness a turn_on shows. */
  function Asked(ha: Option<int>): Option<int> {
    Some(ha.GetOr(255))
  }

  /** The turn_on that set the pair a light shows is in flight. */
  predicate InFlight(s: System, key: OutputKey, brightness: Option<int>) {
    && key in s.latest && s.latest[key] in s.inflight
    && s.inflight[s.latest[key]].TurnOn? && s.inflight[s.latest[key]].key == key
    && Asked(s.inflight[s.latest[key]].brightness) == brightness
  }

  /** The pair is set or cleared together, and the CAN value is that of the brightness. */
  predicate Paired(v: View) {
    && (v.brightness.Some? <==> v.canValue.Some?)
    && (v.canValue.Some? ==>
          v.canValue.value == Brightness.CanTxToRx(Brightness.HaToCan(v.brightness.value)))
  }

  /** That turn_on will make the cache hold what the light expects. */
  lemma InFlightWillWrite(cfg: Config, s: System, key: OutputKey, v: View)
    requires Paired(v) && v.canValue.Some? && InFlight(s, key, v.brightness) && key in cfg.dimmers
    ensures Current(Completed(cfg, s, s.latest[key]).states, key) == v.canValue.value
  {
    var c := s.inflight[s.latest[key]];
    assert Brightness.HaToCan(255) == Brightness.MAX_CAN_BRIGHTNESS_TX;
    assert LocalWrites(cfg.dimmers, c) == [Assign(key, v.canValue.value)];
    assert [Assign(key, v.canValue.value)][..0] == [];
  }

  /** A light that expects something else than the cache holds is about to be told, or its own
      turn_on is still in flight, or that turn_on was cancelled. */
  predicate Explained(cfg: Config, s: System, key: OutputKey)
    requires key in s.views
  {
    var v := s.views[key];
    v.canValue.Some? ==>
      || Current(s.states, key) == v.canValue.value
      || s.pending
      || key in s.stray
      || InFlight(s, key, v.brightness)
  }

  /** A stray light shows what its cancelled turn_on asked for, and so does, unless it has been
      blanked, a light whose last turn_on is in flight. */
  predicate ShowsAsked(s: System, k: OutputKey)
    requires k in s.views
  {
    && (k in s.stray ==> s.views[k].brightness == Asked(s.stray[k]))
    && (k in s.latest && s.latest[k] in s.inflight && s.views[k] != BLANK ==>
          s.inflight[s.latest[k]].TurnOn? && s.views[k].brightness == Asked(s.inflight[s.latest[k]].brightness))
  }

  ghost predicate ShowsItsCommand(s: System) {
    s.stray.Keys <= s.views.Keys && forall k :: k in s.views ==> ShowsAsked(s, k)
  }

  ghost predicate ChainInv(cfg: Config, s: System) {
    && (forall k :: k in s.views ==> Paired(s.views[k]) && Explained(cfg, s, k))
    && (forall k :: k in s.views && s.views[k].canValue.Some? ==> k in cfg.dimmers)
    && (forall id :: id in s.inflight ==> id < s.nextId)
    && (forall k :: k in s.latest ==> s.latest[k] < s.nextId)
    && (forall k :: k in s.latest && s.latest[k] in s.inflight ==>
          s.inflight[s.latest[k]].TurnOn? && s.inflight[s.latest[k]].key == k)
    && (s.pending || s.data == s.states)
  }

  lemma OnViewPaired(ha: Option<int>, v: View)
    ensures Paired(OnView(true, ha, v))
  {
    assert Brightness.HaToCan(255) == Brightness.MAX_CAN_BRIGHTNESS_TX;
  }

  /** Most moves leave the views alone or blank one of them; then only `Explained` has to be redone. */
  lemma ViewsKeptOrBlank(cfg: Config, s: System, s': System)
    requires ChainInv(cfg, s)
    requires s'.views.Keys == s.views.Keys
    requires forall k :: k in s'.views ==> s'.views[k] == s.views[k] || s'.views[k] == BLANK
    requires forall k :: k in s'.views && s'.views[k] != BLANK ==> Explained(cfg, s', k)
    ensures forall k :: k in s'.views ==> Paired(s'.views[k]) && Explained(cfg, s', k)
    ensures forall k :: k in s'.views && s'.views[k].canValue.Some? ==> k in cfg.dimmers
  {
  }

  lemma TurnOnKeepsInv(cfg: Config, s: System, key: OutputKey, ha: Option<int>)
    requires ChainInv(cfg, s) && key in s.views
    ensures ChainInv(cfg, Begun(cfg, s, TurnOn(key, ha)))
  {
    var c := TurnOn(key, ha);
    var s' := Begun(cfg, s, c);
    OnViewPaired(ha, BLANK);
    assert s'.inflight[s'.latest[key]] == c;
    forall k | k in s'.views
      ensures Paired(s'.views[k]) && Explained(cfg, s', k)
    {
      if k == key && key in cfg.dimmers {
        assert InFlight(s', key, Asked(ha));
      } else {
        assert s'.views[k] == s.views[k] && Explained(cfg, s, k);
        if k != key {
          InFlightKept(s, s', k);
        }
      }
    }
  }

  /** What is in flight for another light, or stays in flight, still explains it. */
  lemma InFlightKept(s: System, s': System, k: OutputKey)
    requires k in s.latest ==>
               && k in s'.latest && s'.latest[k] == s.latest[k]
               && (s.latest[k] in s.inflight ==>
                     s.latest[k] in s'.inflight && s'.inflight[s.latest[k]] == s.inflight[s.latest[k]])
    ensures forall brightness :: InFlight(s, k, brightness) ==> InFlight(s', k, brightness)
  {
  }

  lemma BeginKeepsInv(cfg: Config, s: System, c: Command)
    requires ChainInv(cfg, s)
    ensures ChainInv(cfg, Begun(cfg, s, c))
  {
    if c.TurnOn? && c.key in s.views {
      TurnOnKeepsInv(cfg, s, c.key, c.brightness);
    } else {
      var s' := Begun(cfg, s, c);
      forall k | k in s'.views && s'.views[k] != BLANK
        ensures Explained(cfg, s', k)
      {
        assert Explained(cfg, s, k);
        InFlightKept(s, s', k);
      }
      ViewsKeptOrBlank(cfg, s, s');
    }
  }

  /** A send that fails or is cancelled takes one command out of flight and may blank a light. */
  predicate OneOut(s: System, s': System, id: nat) {
    && id in s.inflight && s'.inflight == s.inflight - {id}
    && s'.latest == s.latest && s'.nextId == s.nextId
    && s'.states == s.states && s'.pending == s.pending && s'.data == s.data
    && s'.views.Keys == s.views.Keys
  }

  /** What it does to one light: it is blank, or shows what it did and is stray if it was or if the
      command was its last turn_on. */
  predicate LeftAs(s: System, s': System, id: nat, k: OutputKey)
    requires k in s.views && k in s'.views
  {
    s'.views[k] == BLANK
    || (s'.views[k] == s.views[k]
        && (k in s.stray || (k in s.latest && s.latest[k] == id) ==> k in s'.stray))
  }

  lemma OneOutExplains(cfg: Config, s: System, s': System, id: nat, k: OutputKey)
    requires k in s.views && Explained(cfg, s, k) && OneOut(s, s', id) && LeftAs(s, s', id, k)
    ensures s'.views[k] != BLANK ==> Explained(cfg, s', k)
  {
    if k !in s.latest || s.latest[k] != id {
      InFlightKept(s, s', k);
    }
  }

  lemma OneOutKeepsInv(cfg: Config, s: System, s': System, id: nat)
    requires ChainInv(cfg, s) && OneOut(s, s', id)
    requires forall k :: k in s.views ==> LeftAs(s, s', id, k)
    ensures ChainInv(cfg, s')
  {
    forall k | k in s'.views && s'.views[k] != BLANK
      ensures Explained(cfg, s', k)
    {
      OneOutExplains(cfg, s, s', id, k);
    }
    ViewsKeptOrBlank(cfg, s, s');
  }

  lemma FailedAt(s: System, id: nat, k: OutputKey)
    requires id in s.inflight && k in s.views
    ensures var s' := Failed(s, id);
            && OneOut(s, s', id)
            && if s.inflight[id].TurnOn? && s.inflight[id].key == k then s'.views[k] == BLANK && k !in s'.stray
               else s'.views[k] == s.views[k] && (k in s'.stray <==> k in s.stray)
                    && (k in s.stray ==> s'.stray[k] == s.stray[k])
  {
  }

  lemma FailKeepsInv(cfg: Config, s: System, id: nat)
    requires ChainInv(cfg, s)
    ensures ChainInv(cfg, Failed(s, id))
  {
    if id in s.inflight {
      var s' := Failed(s, id);
      assert OneOut(s, s', id);
      forall k | k in s.views
        ensures LeftAs(s, s', id, k)
      {
        FailedAt(s, id, k);
      }
      OneOutKeepsInv(cfg, s, s', id);
    }
  }

  lemma CancelKeepsInv(cfg: Config, s: System, id: nat)
    requires ChainInv(cfg, s)
    ensures ChainInv(cfg, Cancelled(s, id))
  {
    if id in s.inflight {
      OneOutKeepsInv(cfg, s, Cancelled(s, id), id);
    }
  }

  lemma ArriveKeepsInv(cfg: Config, s: System, msg: Message)
    requires ChainInv(cfg, s)
    ensures ChainInv(cfg, Arrived(cfg, s, msg))
  {
    var s' := Arrived(cfg, s, msg);
    FramesNotifyChangesOnly(cfg.modules, Run(s.states, []), msg);
    forall k | k in s'.views && s'.views[k] != BLANK
      ensures Explained(cfg, s', k)
    {
      assert Explained(cfg, s, k);
      InFlightKept(s, s', k);
    }
    ViewsKeptOrBlank(cfg, s, s');
  }

  lemma CompleteKeepsInv(cfg: Config, s: System, id: nat)
    requires ChainInv(cfg, s)
    ensures ChainInv(cfg, Completed(cfg, s, id))
  {
    ViewsKeptOrBlank(cfg, s, Completed(cfg, s, id));
  }

  lemma NotifyKeepsInv(cfg: Config, s: System)
    requires ChainInv(cfg, s)
    ensures ChainInv(cfg, Notify(s)) && ChainInv(cfg, Flushed(s))
  {
    ViewsKeptOrBlank(cfg, s, Notify(s));
    ViewsKeptOrBlank(cfg, s, Flushed(s));
  }

  lemma AdvanceKeepsInv(cfg: Config, s: System, h: Happening)
    requires ChainInv(cfg, s)
    ensures ChainInv(cfg, Advance(cfg, s, h))
  {
    match h {
      case Begin(c) => BeginKeepsInv(cfg, s, c);
      case Arrive(msg) => ArriveKeepsInv(cfg, s, msg);
      case Fail(id) => FailKeepsInv(cfg, s, id);
      case CancelSend(id) => CancelKeepsInv(cfg, s, id);
      case Complete(id) => CompleteKeepsInv(cfg, s, id);
      case Flush => NotifyKeepsInv(cfg, s);
      case Publish => NotifyKeepsInv(cfg, s);
    }
  }

  /** For every interleaving of commands that end in any order and in any way, frames and flushes. */
  lemma {:induction false} ChainHolds(cfg: Config, states: States, lights: set<OutputKey>, hs: seq<Happening>)
    ensures ChainInv(cfg, RunChain(cfg, AfterSetup(states, lights), hs))
  {
    if hs != [] {
      ChainHolds(cfg, states, lights, hs[..|hs| - 1]);
      AdvanceKeepsInv(cfg, RunChain(cfg, AfterSetup(states, lights), hs[..|hs| - 1]), hs[|hs| - 1]);
    }
  }

  lemma TurnOnShows(cfg: Config, s: System, ha: Option<int>, k: OutputKey)
    requires k in s.views && (s.views[k] != BLANK ==> k in cfg.dimmers)
    ensures ShowsAsked(Begun(cfg, s, TurnOn(k, ha)), k)
  {
    var s' := Begun(cfg, s, TurnOn(k, ha));
    assert s'.latest[k] == s.nextId && s'.inflight[s.nextId] == TurnOn(k, ha);
    assert s'.views[k] == OnView(k in cfg.dimmers, ha, s.views[k]);
    assert k !in s'.stray;
  }

  lemma KeptShows(s: System, s': System, k: OutputKey)
    requires k in s.views && ShowsAsked(s, k) && k in s'.views
    requires s'.views[k] == s.views[k] || s'.views[k] == BLANK
    requires k in s'.stray ==> k in s.stray && s'.stray[k] == s.stray[k] && s'.views[k] == s.views[k]
    requires k in s'.latest && s'.latest[k] in s'.inflight ==>
               && k in s.latest && s.latest[k] == s'.latest[k]
               && s.latest[k] in s.inflight && s.inflight[s.latest[k]] == s'.inflight[s.latest[k]]
    ensures ShowsAsked(s', k)
  {
  }

  lemma BeginShows(cfg: Config, s: System, c: Command, k: OutputKey)
    requires k in s.views && ShowsAsked(s, k)
    requires k in s.latest ==> s.latest[k] < s.nextId
    requires !(c.TurnOn? && c.key == k)
    ensures ShowsAsked(Begun(cfg, s, c), k)
  {
    var s' := Begun(cfg, s, c);
    AdvanceBegin(cfg, s, c);
    if c.TurnOff? && c.key == k {
      assert k !in s'.stray && s'.views[k] == BLANK;
    } else {
      assert s'.views[k] == s.views[k];
    }
    KeptShows(s, s', k);
  }

  lemma FailShows(s: System, id: nat, k: OutputKey)
    requires k in s.views && ShowsAsked(s, k)
    ensures ShowsAsked(Failed(s, id), k)
  {
    if id in s.inflight {
      FailedAt(s, id, k);
      OneOutShows(s, Failed(s, id), id, k);
    }
  }

  lemma OneOutShows(s: System, s': System, id: nat, k: OutputKey)
    requires k in s.views && ShowsAsked(s, k) && OneOut(s, s', id)
    requires s'.views[k] == s.views[k] || s'.views[k] == BLANK
    requires k in s'.stray ==> k in s.stray && s'.stray[k] == s.stray[k] && s'.views[k] == s.views[k]
    ensures ShowsAsked(s', k)
  {
    KeptShows(s, s', k);
  }

  lemma CancelShows(s: System, id: nat, k: OutputKey)
    requires k in s.views && ShowsAsked(s, k)
    ensures ShowsAsked(Cancelled(s, id), k)
  {
    if id in s.inflight && Shows(s, s.inflight[id], id) && s.inflight[id].key == k {
      assert id !in Cancelled(s, id).inflight;
    } else {
      KeptShows(s, Cancelled(s, id), k);
    }
  }

  lemma CompleteShows(cfg: Config, s: System, id: nat, k: OutputKey)
    requires k in s.views && ShowsAsked(s, k)
    ensures ShowsAsked(Completed(cfg, s, id), k)
  {
    KeptShows(s, Completed(cfg, s, id), k);
  }

  lemma NotifyShows(s: System)
    requires ShowsItsCommand(s)
    ensures ShowsItsCommand(Notify(s))
  {
  }

  lemma AdvanceShows(cfg: Config, s: System, h: Happening)
    requires ChainInv(cfg, s) && ShowsItsCommand(s)
    ensures ShowsItsCommand(Advance(cfg, s, h))
  {
    AdvanceKeepsLights(cfg, s, h);
    forall k | k in s.views
      ensures ShowsAsked(Advance(cfg, s, h), k)
    {
      assert ShowsAsked(s, k);
      match h {
        case Begin(c) =>
          if c.TurnOn? && c.key == k {
            TurnOnShows(cfg, s, c.brightness, k);
          } else {
            BeginShows(cfg, s, c, k);
          }
        case Flush => NotifyShows(s);
        case Publish => NotifyShows(s);
        case Arrive(msg) => KeptShows(s, Arrived(cfg, s, msg), k);
        case Complete(id) => CompleteShows(cfg, s, id, k);
        case Fail(id) => FailShows(s, id, k);
        case CancelSend(id) => CancelShows(s, id, k);
      }
    }
  }

  lemma {:induction false} ChainShows(cfg: Config, states: States, lights: set<OutputKey>, hs: seq<Happening>)
    ensures ShowsItsCommand(RunChain(cfg, AfterSetup(states, lights), hs))
  {
    if hs != [] {
      ChainShows(cfg, states, lights, hs[..|hs| - 1]);
      ChainHolds(cfg, states, lights, hs[..|hs| - 1]);
      AdvanceShows(cfg, RunChain(cfg, AfterSetup(states, lights), hs[..|hs| - 1]), hs[|hs| - 1]);
    }
  }

  ghost predicate Quiescent(s: System) {
    s.inflight == map[] && !s.pending
  }

  /** The CAN value a turn_on expects to see in the cache. */
  function Expects(ha: Option<int>): int {
    Brightness.CanTxToRx(if ha.Some? then Brightness.HaToCan(ha.value) else Brightness.MAX_CAN_BRIGHTNESS_TX)
  }

  /** A light holds a pair that the cache contradicts. */
  predicate Contradicted(s: System, key: OutputKey)
    requires key in s.views
  {
    s.views[key].canValue.Some? && s.views[key].canValue.value != Current(s.states, key)
  }

  /** What a reported brightness should be: the direct conversion of the cached value, or one that
      quantises to exactly that value. */
  predicate Truthful(shown: int, cached: int) {
    shown == Brightness.CanToHa(cached) || Brightness.CanTxToRx(Brightness.HaToCan(shown)) == cached
  }

  lemma PairOf(v: View, ha: Option<int>)
    requires Paired(v) && v.brightness == Asked(ha)
    ensures v.canValue == Some(Expects(ha))
  {
    assert Brightness.HaToCan(255) == Brightness.MAX_CAN_BRIGHTNESS_TX;
  }

  lemma ReportOf(v: View, cached: int)
    requires Paired(v)
    ensures var shown := Reported(true, v, cached).value;
            && shown == v.brightness.GetOr(Brightness.CanToHa(cached))
            && (v.canValue == Some(cached) ==> Truthful(shown, cached))
            && (v.brightness.None? ==> Truthful(shown, cached))
            && (Truthful(shown, cached) && 14 <= shown <= 255 ==>
                  Brightness.Abs(Brightness.CanToHa(cached) - shown) <= 14)
  {
    if v.brightness.Some? {
      Brightness.RoundTripError(v.brightness.value);
    }
  }

  lemma AtRest(cfg: Config, s: System, key: OutputKey)
    requires ChainInv(cfg, s) && ShowsItsCommand(s) && Quiescent(s) && key in s.views
    ensures Contradicted(s, key) <==> key in s.stray && Expects(s.stray[key]) != Current(s.states, key)
    ensures key in s.stray ==> s.views[key].brightness == Asked(s.stray[key])
  {
    assert Explained(cfg, s, key) && ShowsAsked(s, key);
    if key in s.stray {
      PairOf(s.views[key], s.stray[key]);
    }
  }

  /** A dimmer reports what it should, unless it is stray with a brightness that is not; and what it
      should report is at most 14 away from the direct conversion. */
  predicate TruthfulUnlessStray(s: System, key: OutputKey)
    requires key in s.views
  {
    var cached := Current(s.states, key);
    var shown := Reported(true, s.views[key], cached).value;
    && (Truthful(shown, cached) <==> !(key in s.stray && !Truthful(s.stray[key].GetOr(255), cached)))
    && (Truthful(shown, cached) && 14 <= shown <= 255 ==>
          Brightness.Abs(Brightness.CanToHa(cached) - shown) <= 14)
  }

  lemma ReportedAtRest(cfg: Config, s: System, key: OutputKey)
    requires ChainInv(cfg, s) && ShowsItsCommand(s) && Quiescent(s) && key in s.views
    ensures TruthfulUnlessStray(s, key)
  {
    AtRest(cfg, s, key);
    ReportOf(s.views[key], Current(s.states, key));
  }

  lemma EndOfRun(cfg: Config, states: States, lights: set<OutputKey>, hs: seq<Happening>)
    ensures var s := RunChain(cfg, AfterSetup(states, lights), hs);
            ChainInv(cfg, s) && ShowsItsCommand(s) && s.views.Keys == lights
  {
    ChainHolds(cfg, states, lights, hs);
    ChainShows(cfg, states, lights, hs);
    LightsStay(cfg, AfterSetup(states, lights), hs);
  }

  /** When nothing is in flight and no flush is due, snapshot and cache agree, and a light contradicts
      them if and only if it is stray and the brightness its cancelled turn_on asked for does not
      quantise to the cached value. */
  lemma ContradictedIff(cfg: Config, states: States, lights: set<OutputKey>, hs: seq<Happening>, key: OutputKey)
    requires key in lights && Quiescent(RunChain(cfg, AfterSetup(states, lights), hs))
    ensures var s := RunChain(cfg, AfterSetup(states, lights), hs);
            && s.data == s.states && key in s.views
            && (Contradicted(s, key) <==> key in s.stray && Expects(s.stray[key]) != Current(s.states, key))
  {
    EndOfRun(cfg, states, lights, hs);
    AtRest(cfg, RunChain(cfg, AfterSetup(states, lights), hs), key);
  }

  /** So a dimmer at rest reports what it should, except exactly when a cancelled turn_on is still
      shown whose brightness is neither; and a brightness it should report is at most 14 away. */
  lemma QuiescentAgreement(cfg: Config, states: States, lights: set<OutputKey>, hs: seq<Happening>, key: OutputKey)
    requires key in lights && key in cfg.dimmers
    requires Quiescent(RunChain(cfg, AfterSetup(states, lights), hs))
    ensures var s := RunChain(cfg, AfterSetup(states, lights), hs);
            s.data == s.states && key in s.views && TruthfulUnlessStray(s, key)
  {
    EndOfRun(cfg, states, lights, hs);
    ReportedAtRest(cfg, RunChain(cfg, AfterSetup(states, lights), hs), key);
  }

  lemma {:induction false} LightsStay(cfg: Config, start: System, hs: seq<Happening>)
    ensures RunChain(cfg, start, hs).views.Keys == start.views.Keys
  {
    if hs != [] {
      LightsStay(cfg, start, hs[..|hs| - 1]);
      AdvanceKeepsLights(cfg, RunChain(cfg, start, hs[..|hs| - 1]), hs[|hs| - 1]);
    }
  }

  lemma AdvanceKeepsLights(cfg: Config, s: System, h: Happening)
    ensures Advance(cfg, s, h).views.Keys == s.views.Keys
    ensures !h.CancelSend? ==> Advance(cfg, s, h).stray.Keys <= s.stray.Keys
  {
    match h {
      case Begin(c) => AdvanceBegin(cfg, s, c);
      case _ =>
    }
  }

  lemma AdvanceBegin(cfg: Config, s: System, c: Command)
    ensures Begun(cfg, s, c).views.Keys == s.views.Keys
    ensures Begun(cfg, s, c).stray.Keys <= s.stray.Keys
  {
  }

  /** Only a cancellation makes a light stray. */
  lemma {:induction false} NoCancelNoStray(cfg: Config, states: States, lights: set<OutputKey>, hs: seq<Happening>)
    requires forall i :: 0 <= i < |hs| ==> !hs[i].CancelSend?
    ensures RunChain(cfg, AfterSetup(states, lights), hs).stray == map[]
  {
    if hs != [] {
      NoCancelNoStray(cfg, states, lights, hs[..|hs| - 1]);
      AdvanceKeepsLights(cfg, RunChain(cfg, AfterSetup(states, lights), hs[..|hs| - 1]), hs[|hs| - 1]);
    }
  }

  // ---------------------------------------------------------------------------------------------
  // The slider does not snap
  // ---------------------------------------------------------------------------------------------

  /** A notification blanks a light exactly if the cache does not hold what the light expects, and
      otherwise leaves it alone. */
  lemma NotifyBlanksIff(s: System, key: OutputKey)
    requires key in s.views && s.views[key].canValue.Some?
    ensures key in Notify(s).views
    ensures Current(s.states, key) != s.views[key].canValue.value ==> Notify(s).views[key] == View(None, None)
    ensures Current(s.states, key) == s.views[key].canValue.value ==> Notify(s).views[key] == s.views[key]
  {
  }

  /** A continuation in which the light is not switched again, no turn_on of it fails, and every
      notification finds the cache at the value `ha` asks for. */
  predicate Calm(cfg: Config, s: System, hs: seq<Happening>, key: OutputKey, ha: Option<int>) {
    hs != [] ==>
      var before, h := RunChain(cfg, s, hs[..|hs| - 1]), hs[|hs| - 1];
      && Calm(cfg, s, hs[..|hs| - 1], key, ha)
      && (h.Begin? && (h.c.TurnOn? || h.c.TurnOff?) ==> h.c.key != key)
      && (h.Fail? && h.id in before.inflight && before.inflight[h.id].TurnOn? ==> before.inflight[h.id].key != key)
      && (h.Publish? || (h.Flush? && before.pending) ==> Current(before.states, key) == Expects(ha))
  }

  /** The pair a turn_on shows. */
  function AskedView(ha: Option<int>): View {
    View(Some(ha.GetOr(255)), Some(Expects(ha)))
  }

  lemma StepKeepsView(cfg: Config, s: System, h: Happening, key: OutputKey, ha: Option<int>)
    requires key in s.views && s.views[key] == AskedView(ha)
    requires h.Begin? && (h.c.TurnOn? || h.c.TurnOff?) ==> h.c.key != key
    requires h.Fail? && h.id in s.inflight && s.inflight[h.id].TurnOn? ==> s.inflight[h.id].key != key
    requires h.Publish? || (h.Flush? && s.pending) ==> Current(s.states, key) == Expects(ha)
    ensures key in Advance(cfg, s, h).views && Advance(cfg, s, h).views[key] == AskedView(ha)
  {
    match h {
      case Begin(c) => AdvanceBegin(cfg, s, c);
      case Fail(id) => if id in s.inflight { FailedAt(s, id, key); }
      case Publish => NotifyBlanksIff(s, key);
      case Flush => if s.pending { NotifyBlanksIff(s, key); }
      case _ =>
    }
  }

  lemma {:induction false} ViewSurvives(cfg: Config, s: System, hs: seq<Happening>, key: OutputKey, ha: Option<int>)
    requires key in s.views && s.views[key] == AskedView(ha) && Calm(cfg, s, hs, key, ha)
    ensures key in RunChain(cfg, s, hs).views && RunChain(cfg, s, hs).views[key] == AskedView(ha)
  {
    if hs != [] {
      ViewSurvives(cfg, s, hs[..|hs| - 1], key, ha);
      StepKeepsView(cfg, RunChain(cfg, s, hs[..|hs| - 1]), hs[|hs| - 1], key, ha);
    }
  }

  /** From the moment a dimmer is turned on with a brightness it reports exactly that brightness, from
      any state and through any such continuation: other lights' commands, frames, cancellations and
      notifications that find the cache where the turn_on puts it. */
  lemma SliderStays(cfg: Config, s: System, hs: seq<Happening>, key: OutputKey, ha: Option<int>)
    requires key in s.views && key in cfg.dimmers
    requires Calm(cfg, Begun(cfg, s, TurnOn(key, ha)), hs, key, ha)
    ensures var t := RunChain(cfg, Begun(cfg, s, TurnOn(key, ha)), hs);
            && key in t.views && t.views[key] == AskedView(ha)
            && Reported(true, t.views[key], Current(t.states, key)) == Some(ha.GetOr(255))
  {
    ViewSurvives(cfg, Begun(cfg, s, TurnOn(key, ha)), hs, key, ha);
  }

  /** In particular through the flush that follows its own success: 100 stays 100, although the cache
      then holds a value that converts to 113. */
  lemma OwnFlushKeepsSlider(cfg: Config, s: System, key: OutputKey, ha: Option<int>)
    requires key in s.views && key in cfg.dimmers
    ensures var t := Flushed(Completed(cfg, Begun(cfg, s, TurnOn(key, ha)), s.nextId));
            && key in t.views && Current(t.states, key) == Expects(ha) && !t.pending
            && Reported(true, t.views[key], Current(t.states, key)) == Some(ha.GetOr(255))
  {
    OwnCompletion(cfg, s, key, ha);
    NotifyBlanksIff(Completed(cfg, Begun(cfg, s, TurnOn(key, ha)), s.nextId), key);
  }

  lemma OneHundredWouldSnap()
    ensures Brightness.CanToHa(Expects(Some(100))) == 113
  {
  }

  lemma OwnCompletion(cfg: Config, s: System, key: OutputKey, ha: Option<int>)
    requires key in s.views && key in cfg.dimmers
    ensures var done := Completed(cfg, Begun(cfg, s, TurnOn(key, ha)), s.nextId);
            done.pending && done.states == s.states[key := Expects(ha)]
            && key in done.views && done.views[key] == AskedView(ha)
  {
    var begun := Begun(cfg, s, TurnOn(key, ha));
    assert s.nextId in begun.inflight && begun.inflight[s.nextId] == TurnOn(key, ha);
    assert LocalWrites(cfg.dimmers, TurnOn(key, ha)) == [Assign(key, Expects(ha))];
    WriteOne(cfg.modules, Run(s.states, []), Assign(key, Expects(ha)));
    var done := Completed(cfg, begun, s.nextId);
    assert done.states == s.states[key := Expects(ha)];
  }

  /** A turn_off begun, and a turn_on that fails, bring the reported brightness back to the cache at once. */
  lemma OffAndFailureFallBack(cfg: Config, s: System, key: OutputKey, id: nat)
    requires key in s.views
    ensures var t := Begun(cfg, s, TurnOff(key));
            && key in t.views
            && Reported(true, t.views[key], Current(t.states, key)) == Some(Brightness.CanToHa(Current(s.states, key)))
    ensures id in s.inflight && s.inflight[id].TurnOn? && s.inflight[id].key == key ==>
              var t := Failed(s, id);
              && key in t.views
              && Reported(true, t.views[key], Current(t.states, key)) == Some(Brightness.CanToHa(Current(s.states, key)))
  {
  }

  /** A light that cannot be dimmed never reports a brightness. */
  lemma PlainLightHasNoBrightness(v: View, current: int)
    ensures Reported(false, v, current) == None
  {
  }

  /** A cancelled turn_on does break the agreement: its exception handler is skipped, so the light
      goes on reporting 255 over a cache that says off. The next notification puts it right. */
  lemma CancelledTurnOnBreaksAgreement()
    ensures var key := ("A", 1);
            var cfg := Config(["A"], {key});
            var s := RunChain(cfg, AfterSetup(map[], {key}), [Begin(TurnOn(key, Some(255))), CancelSend(0)]);
            && Quiescent(s) && key in s.views && key in s.stray && Contradicted(s, key)
            && Reported(true, s.views[key], Current(s.states, key)) == Some(255) && !Truthful(255, Current(s.states, key))
            && var t := Advance(cfg, s, Publish);
            Quiescent(t) && key in t.views && key !in t.stray && !Contradicted(t, key)
  {
    var key := ("A", 1);
    var cfg := Config(["A"], {key});
    var begin, cancel := Begin(TurnOn(key, Some(255))), CancelSend(0);
    var s0 := AfterSetup(map[], {key});
    var s1 := Advance(cfg, s0, begin);
    assert [begin, cancel][..1] == [begin] && [begin][..0] == [];
    assert RunChain(cfg, s0, [begin]) == s1;
    assert RunChain(cfg, s0, [begin, cancel]) == Advance(cfg, s1, cancel);
    assert s1.inflight - {0} == map[];
  }
}
