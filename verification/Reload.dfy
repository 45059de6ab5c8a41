/** Setup, the update listener and reloads of a config entry. Setup and full reloads take a while, and
    the entry may be edited at any moment of it: every step between two awaits is a move of its own. */
module Reload {
  import opened Wrappers
  import opened ConfigEntry
  import opened Dict
  import opened ModuleFlow
  import opened Outputs
  import opened Cache

  /** The connection part of `entry.data`. */
  datatype Data = Data(
    connectionType: Option<string>, host: Option<string>, port: Option<int>, interface: Option<string>,
    device: Option<string>, masterDevice: Option<string>, max200Host: Option<string>, rest: string)

  type NumberedSubs = s: Subs | AllNumeric(s) witness NoSubs

  /** The config entry. */
  datatype Stored = Stored(data: Data, subs: NumberedSubs)

  /** `_connection_key` */
  datatype ConnectionKey = ConnectionKey(
    connectionType: Option<string>, host: Option<string>, port: Option<int>, interface: Option<string>,
    device: Option<string>, masterDevice: Option<string>, max200Host: Option<string>)

  function KeyOf(d: Data): ConnectionKey {
    ConnectionKey(d.connectionType, d.host, d.port, d.interface, d.device, d.masterDevice, d.max200Host)
  }

  /** `_module_config` */
  function ModuleConfig(s: Subs): set<(string, bool)> {
    if s.NoSubs? then {}
    else (if s.first.ModuleSub? then {(s.first.letter, s.first.dimmable)} else {}) + ModuleConfig(s.rest)
  }

  /** The pairs are those of the module subentries there are. */
  lemma {:induction false} ModuleConfigExactly(s: Subs, letter: string, dimmable: bool)
    ensures (letter, dimmable) in ModuleConfig(s)
            <==> exists x :: Contains(s, x) && x.ModuleSub? && x.letter == letter && x.dimmable == dimmable
  {
    if s.Sub? {
      ModuleConfigExactly(s.rest, letter, dimmable);
      assert Contains(s, s.first);
      assert forall x :: Contains(s, x) <==> x == s.first || Contains(s.rest, x);
    }
  }

  /** The seven connection fields are the same. */
  predicate SameConnection(d1: Data, d2: Data) {
    && d1.connectionType == d2.connectionType && d1.host == d2.host && d1.port == d2.port
    && d1.interface == d2.interface && d1.device == d2.device
    && d1.masterDevice == d2.masterDevice && d1.max200Host == d2.max200Host
  }

  /** Some module subentry has this letter and this flag. */
  ghost predicate HasModule(s: Subs, letter: string, dimmable: bool) {
    exists x :: Contains(s, x) && x.ModuleSub? && x.letter == letter && x.dimmable == dimmable
  }

  /** The module subentries have the same (letter, dimmable) pairs. */
  ghost predicate SameModules(s1: Subs, s2: Subs) {
    forall letter, dimmable :: HasModule(s1, letter, dimmable) <==> HasModule(s2, letter, dimmable)
  }

  lemma SameModulesIff(s1: Subs, s2: Subs)
    ensures ModuleConfig(s1) == ModuleConfig(s2) <==> SameModules(s1, s2)
  {
    forall letter, dimmable
      ensures (letter, dimmable) in ModuleConfig(s1) <==> HasModule(s1, letter, dimmable)
      ensures (letter, dimmable) in ModuleConfig(s2) <==> HasModule(s2, letter, dimmable)
    {
      ModuleConfigExactly(s1, letter, dimmable);
      ModuleConfigExactly(s2, letter, dimmable);
    }
    if SameModules(s1, s2) {
      forall p | p in ModuleConfig(s1) + ModuleConfig(s2)
        ensures p in ModuleConfig(s1) && p in ModuleConfig(s2)
      {
        assert p == (p.0, p.1);
        assert HasModule(s1, p.0, p.1) <==> HasModule(s2, p.0, p.1);
      }
    }
  }

  datatype Connection = Socketcand(host: string, port: int, interface: string) | Usb(device: string)

  /** What a coordinator is connected to: fixed by its constructor. */
  datatype Link = Link(connection: Connection, serial: Option<string>, tcp: Option<string>)

  /** A coordinator with its controller. `modules` is the controller's sorted list as a set. */
  datatype Live = Live(link: Link, lists: Lists, modules: set<string>)

  function NonEmpty(s: Option<string>): Option<string> {
    if s == Some("") then None else s
  }

  function LinkOf(d: Data): Link {
    var connection :=
      if d.connectionType.GetOr("socketcand") == "socketcand"
      then Socketcand(d.host.GetOr(""), d.port.GetOr(0), d.interface.GetOr(""))
      else Usb(d.device.GetOr(""));
    Link(connection, NonEmpty(d.masterDevice), NonEmpty(d.max200Host))
  }

  /** Two links are the same exactly if they are of the same kind (socketcand unless told otherwise),
      with the same host, port and interface or the same device, and lead to the same two ways to the
      Max200, where an empty name is none. */
  lemma LinkExactly(d1: Data, d2: Data)
    ensures LinkOf(d1) == LinkOf(d2)
            <==> && (d1.connectionType in {None, Some("socketcand")} <==> d2.connectionType in {None, Some("socketcand")})
                 && (d1.connectionType in {None, Some("socketcand")} ==>
                       && d1.host.GetOr("") == d2.host.GetOr("") && d1.port.GetOr(0) == d2.port.GetOr(0)
                       && d1.interface.GetOr("") == d2.interface.GetOr(""))
                 && (d1.connectionType !in {None, Some("socketcand")} ==> d1.device.GetOr("") == d2.device.GetOr(""))
                 && d1.masterDevice.GetOr("") == d2.masterDevice.GetOr("")
                 && d1.max200Host.GetOr("") == d2.max200Host.GetOr("")
  {
  }

  function ListsIn(s: NumberedSubs): Lists {
    AddSubs(EMPTY_LISTS, s)
  }

  function ModulesOf(l: Lists): set<string> {
    (set k | k in l.lights :: k.0) + (set k | k in l.dimmers :: k.0) + (set k | k in l.switches :: k.0)
    + set x | x in l.shutters :: x.letter
  }

  /** A controller knows the modules of its outputs and no others. */
  lemma ModulesOfExactly(l: Lists, m: string)
    ensures m in ModulesOf(l)
            <==> || (exists k: OutputKey :: (k in l.lights || k in l.dimmers || k in l.switches) && k.0 == m)
                 || (exists x :: x in l.shutters && x.letter == m)
  {
  }

  /** What the constructors of coordinator and controller make of the entry. */
  function Fresh(e: Stored): Live {
    var lists := ListsIn(e.subs);
    Live(LinkOf(e.data), lists, ModulesOf(lists))
  }

  /** What the fast path makes of a live coordinator. */
  function WithLists(l: Live, s: NumberedSubs): Live {
    var lists := ListsIn(s);
    l.(lists := lists, modules := ModulesOf(lists))
  }

  /** What the fast path leaves alone is fixed by what the listener compares. */
  lemma SameKeySameLink(d1: Data, d2: Data)
    requires KeyOf(d1) == KeyOf(d2)
    ensures LinkOf(d1) == LinkOf(d2)
  {
  }

  // ---------------------------------------------------------------------------------------------
  // The moves
  // ---------------------------------------------------------------------------------------------

  /** The two snapshots of the listener. */
  datatype Watch = Watch(conn: ConnectionKey, modules: set<(string, bool)>)

  function WatchOf(e: Stored): Watch {
    Watch(KeyOf(e.data), ModuleConfig(e.subs))
  }

  /** What has happened to the live coordinator: the entry its constructor read, the entry at the
      registration of its listener, the subentries its lists were last parsed from, whether that was
      by the fast path, and whether an unload of it has been refused. */
  datatype History = History(
    built: Stored, registered: Stored, parsed: NumberedSubs, reparsed: bool, refused: bool)

  function NewHistory(e: Stored): History {
    History(e, e, e.subs, false, false)
  }

  /** No `live`: not set up, or setup has failed and will be retried. `live` without `watch`: setup is
      between the constructor and the registration of the listener. `unloading`: a reload waits for the
      old coordinator to be unloaded; its listener is still registered. `queued`: full reloads that
      wait for the entry's setup lock. */
  datatype Plant = Plant(
    entry: Stored, live: Option<Live>, watch: Option<Watch>, unloading: bool, queued: nat, past: History)

  function Idle(e: Stored): Plant {
    Plant(e, None, None, false, 0, NewHistory(e))
  }

  datatype Move =
    | Edit(entry: Stored)
    | Construct
    | FinishSetup
    | SetupFails
    | RequestReload
    | ReloadBegins
    | UnloadDone
    | UnloadRefused

  predicate TakesFastPath(p: Plant, e: Stored) {
    p.live.Some? && p.watch == Some(WatchOf(e))
  }

  /** One move; a move that is not possible in `p` changes nothing. */
  function Advance(p: Plant, m: Move): Plant {
    match m
    case Edit(e) =>
      var p' := p.(entry := e);
      if p.watch.None? then p'
      else if TakesFastPath(p, e) then
        p'.(live := Some(WithLists(p.live.value, e.subs)), past := p.past.(parsed := e.subs, reparsed := true))
      else p'.(watch := Some(WatchOf(e)), queued := p.queued + 1)
    case Construct =>
      if p.live.Some? then p else p.(live := Some(Fresh(p.entry)), past := NewHistory(p.entry))
    case FinishSetup =>
      if p.live.None? || p.watch.Some? then p
      else p.(watch := Some(WatchOf(p.entry)), past := p.past.(registered := p.entry))
    case SetupFails => if p.live.Some? && p.watch.None? then p.(live := None) else p
    case RequestReload => p.(queued := p.queued + 1)
    case ReloadBegins =>
      if p.queued == 0 then p
      else if p.live.None? then p.(queued := p.queued - 1, live := Some(Fresh(p.entry)), past := NewHistory(p.entry))
      else if p.watch.Some? && !p.unloading then p.(queued := p.queued - 1, unloading := true)
      else p
    case UnloadDone => if p.unloading then p.(live := None, watch := None, unloading := false) else p
    case UnloadRefused => if p.unloading then p.(unloading := false, past := p.past.(refused := true)) else p
  }

  function Run(e: Stored, moves: seq<Move>): Plant {
    if moves == [] then Idle(e) else Advance(Run(e, moves[..|moves| - 1]), moves[|moves| - 1])
  }

  /** The code that makes these moves. */
  class Integration {
    /** The entry, an object that Home Assistant updates in place. */
    var entry: Stored
    var live: Option<Live>
    var watch: Option<Watch>
    ghost var unloading: bool
    ghost var queued: nat
    ghost var past: History

    ghost function Shape(): Plant
      reads this
    {
      Plant(entry, live, watch, unloading, queued, past)
    }

    constructor (e: Stored)
      ensures Shape() == Idle(e)
    {
      entry, live, watch := e, None, None;
      unloading, queued, past := false, 0, NewHistory(e);
    }

    /** `async_setup_entry` up to its first await: the coordinator is constructed. */
    method BeginSetup()
      requires live.None?
      modifies this
      ensures Shape() == Advance(old(Shape()), Construct)
    {
      var lists := ParseOutputLists(entry.subs);
      live := Some(Live(LinkOf(entry.data), lists, ModulesOf(lists)));
      past := NewHistory(entry);
    }

    /** `async_setup_entry` after its last await: the snapshots are taken and the listener registered. */
    method EndSetup()
      requires live.Some? && watch.None?
      modifies this
      ensures Shape() == Advance(old(Shape()), FinishSetup)
    {
      watch := Some(Watch(KeyOf(entry.data), ModuleConfig(entry.subs)));
      past := past.(registered := entry);
    }

    /** An update of the entry, and `_listener`, if there is one, up to its first await. A full reload
        is asked for, which begins when the setup lock is free. */
    method OnUpdate(e: Stored) returns (reloads: bool)
      modifies this
      ensures Shape() == Advance(old(Shape()), Edit(e))
      ensures reloads <==> old(watch).Some? && !TakesFastPath(old(Shape()), e)
      ensures old(watch) == Some(WatchOf(old(entry))) && old(live).Some? ==>
                (reloads <==> !(SameConnection(old(entry).data, e.data) && SameModules(old(entry).subs, e.subs)))
    {
      SameModulesIff(entry.subs, e.subs);
      entry := e;
      if watch.None? {
        return false;
      }
      var newConn, newModules := KeyOf(e.data), ModuleConfig(e.subs);
      if live.None? || newConn != watch.value.conn || newModules != watch.value.modules {
        watch := Some(Watch(newConn, newModules));
        queued := queued + 1;
        return true;
      }
      var lists := ParseOutputLists(e.subs);
      live := Some(live.value.(lists := lists, modules := ModulesOf(lists)));
      past := past.(parsed := e.subs, reparsed := true);
      reloads := false;
    }
  }

  // ---------------------------------------------------------------------------------------------
  // When the live coordinator is what a fresh build would be
  // ---------------------------------------------------------------------------------------------

  /** Nothing is on the way: the listener is registered and no full reload runs or waits. */
  predicate Settled(p: Plant) {
    p.watch.Some? && !p.unloading && p.queued == 0
  }

  ghost predicate Inv(p: Plant) {
    && (p.watch.Some? ==> p.live.Some? && p.watch == Some(WatchOf(p.entry)))
    && (p.unloading ==> p.watch.Some?)
    && (p.live.Some? ==> p.live == Some(WithLists(Fresh(p.past.built), p.past.parsed)))
    && (!p.past.reparsed ==> p.past.parsed == p.past.built.subs)
    && (Settled(p) && !p.past.refused ==>
          && WatchOf(p.past.registered) == WatchOf(p.entry)
          && if p.past.reparsed then p.past.parsed == p.entry.subs else p.past.registered == p.entry)
  }

  lemma MoveKeepsInv(p: Plant, m: Move)
    requires Inv(p) && !(p.live.Some? && p.watch.None? && p.past.reparsed)
    ensures Inv(Advance(p, m))
    ensures var q := Advance(p, m); !(q.live.Some? && q.watch.None? && q.past.reparsed)
  {
  }

  lemma {:induction false} RunsKeepInv(e: Stored, moves: seq<Move>)
    ensures Inv(Run(e, moves))
    ensures var p := Run(e, moves); !(p.live.Some? && p.watch.None? && p.past.reparsed)
  {
    if moves != [] {
      RunsKeepInv(e, moves[..|moves| - 1]);
      MoveKeepsInv(Run(e, moves[..|moves| - 1]), moves[|moves| - 1]);
    }
  }

  /** After any run, at any moment: the live coordinator is what a fresh build from the present entry
      would be if and only if the entry its constructor read has the same link, and the subentries
      its lists were last parsed from give the same lists. */
  lemma FreshIff(e: Stored, moves: seq<Move>)
    ensures var p := Run(e, moves);
            p.live.Some? ==>
              (p.live.value == Fresh(p.entry)
               <==> && LinkOf(p.past.built.data) == LinkOf(p.entry.data)
                    && ListsIn(p.past.parsed) == ListsIn(p.entry.subs))
  {
    RunsKeepInv(e, moves);
  }

  /** Once everything is settled and no unload has been refused, only the two entries that setup has
      read matter: the one at the constructor and the one at the registration of the listener. The
      coordinator is fresh if and only if these have the same link, and either the same lists or an
      update has come by the fast path since. */
  lemma SettledFreshIff(e: Stored, moves: seq<Move>)
    requires Settled(Run(e, moves)) && !Run(e, moves).past.refused
    ensures var p := Run(e, moves);
            p.live.Some?
            && (p.live.value == Fresh(p.entry)
                <==> && LinkOf(p.past.built.data) == LinkOf(p.past.registered.data)
                     && (p.past.reparsed || ListsIn(p.past.built.subs) == ListsIn(p.past.registered.subs)))
  {
    var p := Run(e, moves);
    RunsKeepInv(e, moves);
    SameKeySameLink(p.past.registered.data, p.entry.data);
  }

  /** An update that takes the fast path, whatever came before it (a refused unload, or a reload that
      is unloading): the result is fresh if and only if the link is that of the entry the constructor
      read. */
  lemma FastPathFreshIff(e: Stored, moves: seq<Move>, updated: Stored)
    requires TakesFastPath(Run(e, moves), updated)
    ensures var p := Run(e, moves);
            var q := Advance(p, Edit(updated));
            && q.live.Some? && q.past.built == p.past.built
            && (q.live.value == Fresh(updated) <==> LinkOf(p.past.built.data) == LinkOf(updated.data))
  {
    RunsKeepInv(e, moves);
  }

  /** The entry is not edited between the constructor and the registration of the listener, and no
      unload is refused. */
  predicate Undisturbed(e: Stored, moves: seq<Move>) {
    moves != [] ==>
      var p, m := Run(e, moves[..|moves| - 1]), moves[|moves| - 1];
      && !m.UnloadRefused? && (m.Edit? ==> p.live.None? || p.watch.Some?)
      && Undisturbed(e, moves[..|moves| - 1])
  }

  lemma {:induction false} UndisturbedHistory(e: Stored, moves: seq<Move>)
    requires Undisturbed(e, moves)
    ensures var p := Run(e, moves);
            && !p.past.refused
            && (p.live.Some? && p.watch.None? ==> p.past.built == p.entry)
            && (p.watch.Some? ==> p.past.built == p.past.registered)
  {
    if moves != [] {
      UndisturbedHistory(e, moves[..|moves| - 1]);
    }
  }

  /** Over every such run, whenever things are settled the coordinator is a fresh build from the latest
      entry, and an update takes the fast path if and only if it leaves the connection and the (letter,
      dimmable) pairs it was built from as they are. */
  lemma FastPathRefinesFreshBuild(e: Stored, moves: seq<Move>)
    requires Undisturbed(e, moves) && Settled(Run(e, moves))
    ensures var p := Run(e, moves);
            && p.live == Some(Fresh(p.entry))
            && forall updated: Stored ::
                 TakesFastPath(p, updated)
                 <==> SameConnection(p.past.built.data, updated.data) && SameModules(p.past.built.subs, updated.subs)
  {
    UndisturbedHistory(e, moves);
    RunsKeepInv(e, moves);
    SettledFreshIff(e, moves);
    var p := Run(e, moves);
    forall updated: Stored
      ensures TakesFastPath(p, updated)
              <==> SameConnection(p.past.built.data, updated.data) && SameModules(p.past.built.subs, updated.subs)
    {
      SameModulesIff(p.past.built.subs, updated.subs);
    }
  }

  /** After any run, while a listener is registered: an update takes the fast path if and only if it
      leaves the seven connection fields and the (letter, dimmable) pairs of the entry as they are. */
  lemma FastPathIff(e: Stored, moves: seq<Move>, updated: Stored)
    requires Run(e, moves).watch.Some?
    ensures var p := Run(e, moves);
            TakesFastPath(p, updated)
            <==> SameConnection(p.entry.data, updated.data) && SameModules(p.entry.subs, updated.subs)
  {
    RunsKeepInv(e, moves);
    SameModulesIff(Run(e, moves).entry.subs, updated.subs);
  }

  lemma RunOne(e: Stored, moves: seq<Move>, m: Move)
    ensures Run(e, moves + [m]) == Advance(Run(e, moves), m)
  {
    assert (moves + [m])[..|moves|] == moves;
  }

  /** Whatever has gone wrong before, a full reload that is not disturbed puts it right. */
  lemma FullReloadHeals(e: Stored, moves: seq<Move>)
    requires var p := Run(e, moves); p.watch.Some? && !p.unloading && p.queued > 0
    ensures var before := Run(e, moves);
            var after := Advance(Advance(Advance(Advance(before, ReloadBegins), UnloadDone), Construct), FinishSetup);
            && after.entry == before.entry && after.live == Some(Fresh(before.entry))
            && after.queued == before.queued - 1 && !after.past.refused && after.watch == Some(WatchOf(before.entry))
  {
    RunsKeepInv(e, moves);
  }

  /** A setup that fails and an unload that succeeds leave nothing, and what is constructed next is
      fresh; a refused unload leaves coordinator and listener as they were; a requested reload begins. */
  lemma SetupsAndUnloads(e: Stored, moves: seq<Move>)
    ensures var p := Run(e, moves);
            && (p.live.None? ==> Advance(p, Construct).live == Some(Fresh(p.entry)) && Advance(p, Construct).watch.None?)
            && (p.live.Some? && p.watch.None? ==> Advance(p, SetupFails).live.None?)
            && (p.unloading ==>
                  && Advance(p, UnloadDone).live.None? && Advance(p, UnloadDone).watch.None?
                  && var q := Advance(p, UnloadRefused);
                  !q.unloading && q.past.refused && q.live == p.live && q.watch == p.watch)
            && (p.watch.Some? && !p.unloading ==>
                  var q := Advance(Advance(p, RequestReload), ReloadBegins);
                  q.unloading && q.queued == p.queued && q.live == p.live && q.watch == p.watch)
  {
    RunsKeepInv(e, moves);
  }

  // ---------------------------------------------------------------------------------------------
  // The ways it goes wrong
  // ---------------------------------------------------------------------------------------------

  const OLD_DATA := Data(None, Some("old"), Some(1), Some("can0"), None, None, None, "")
  const NEW_DATA := OLD_DATA.(host := Some("new"))

  /** Module A with no output, or with light 1. */
  function OneModule(light: bool): NumberedSubs {
    Sub(ModuleSub("id", "module:A", "A", false, if light then Item("1", LightCfg(""), Nothing) else Nothing), NoSubs)
  }

  lemma OneModuleLists()
    ensures ListsIn(OneModule(false)) == EMPTY_LISTS
    ensures ListsIn(OneModule(true)) == EMPTY_LISTS.(lights := [("A", 1)])
    ensures ModulesOf(ListsIn(OneModule(true))) == {"A"}
  {
    IntOfOne();
    assert OneModule(true).first.outputs.rest == Nothing;
    assert ("A", 1) in [("A", 1)];
  }

  lemma IntOfOne()
    ensures Int("1") == Some(1)
  {
    IntOfStr(1);
    assert Str(1) == "1";
  }

  /** An update in the middle of a setup reaches no listener: here a light is added to module A
      during the first discovery. Everything settles, and the controller does not know the module. */
  lemma UpdateDuringSetupIsMissed()
    ensures var e0, e1 := Stored(OLD_DATA, OneModule(false)), Stored(OLD_DATA, OneModule(true));
            var p := Advance(Advance(Advance(Idle(e0), Construct), Edit(e1)), FinishSetup);
            && Settled(p) && !p.past.refused && p.live.Some?
            && "A" !in p.live.value.modules && "A" in Fresh(p.entry).modules
  {
    OneModuleLists();
  }

  /** If the missed update changed the link, no number of later output changes puts it right. */
  lemma MissedLinkStays(e: Stored, moves: seq<Move>, updated: Stored)
    requires Settled(Run(e, moves)) && !Run(e, moves).past.refused
    requires LinkOf(Run(e, moves).past.built.data) != LinkOf(Run(e, moves).past.registered.data)
    requires TakesFastPath(Run(e, moves), updated)
    ensures var q := Run(e, moves + [Edit(updated)]);
            && Settled(q) && !q.past.refused && q.live != Some(Fresh(updated))
            && LinkOf(q.past.built.data) != LinkOf(q.past.registered.data)
  {
    RunOne(e, moves, Edit(updated));
    RunsKeepInv(e, moves);
    FastPathFreshIff(e, moves, updated);
    SameKeySameLink(Run(e, moves).past.registered.data, updated.data);
  }

  /** The listener moves its snapshots before the reload. So while the old coordinator is still being
      unloaded for a new host, an output change takes the fast path on it; and it stays that way if
      the unload is then refused. */
  lemma SnapshotsMoveTooEarly()
    ensures var e0, e1 := Stored(OLD_DATA, OneModule(false)), Stored(NEW_DATA, OneModule(false));
            var e2 := Stored(NEW_DATA, OneModule(true));
            var unloading := Advance(Advance(Advance(Advance(Idle(e0), Construct), FinishSetup), Edit(e1)), ReloadBegins);
            var p := Advance(unloading, Edit(e2));
            var q := Advance(p, UnloadRefused);
            && unloading.unloading && TakesFastPath(unloading, e2)
            && p.live.Some? && p.live.value.link != Fresh(e2).link
            && Settled(q) && q.past.refused && q.live == p.live && q.entry == e2
  {
    assert WatchOf(Stored(NEW_DATA, OneModule(false))) == WatchOf(Stored(NEW_DATA, OneModule(true)));
  }
}
