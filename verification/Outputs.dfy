/** From stored subentries to the controller's output lists, and what the disjoint claims of the
    allocator are worth at the other end: commands that do not interfere. */
module Outputs {
  import opened Wrappers
  import opened Protocol
  import opened Cache
  import opened Dict
  import opened ModuleFlow
  import opened ConfigEntry

  datatype Lists = Lists(
    lights: seq<OutputKey>, dimmers: set<OutputKey>, shutters: seq<ShutterConfig>, switches: seq<OutputKey>)

  const EMPTY_LISTS := Lists([], {}, [], [])

  function AddOne(l: Lists, letter: string, dimmable: bool, output: nat, cfg: OutputCfg): Lists {
    match cfg
    case LightCfg(_) =>
      if dimmable then l.(dimmers := l.dimmers + {(letter, output as int)})
      else l.(lights := l.lights + [(letter, output as int)])
    case ShutterCfg(down, _) => l.(shutters := l.shutters + [ShutterConfig(letter, output, down)])
    case SwitchCfg(_) => l.(switches := l.switches + [(letter, output as int)])
  }

  function AddOutputs(l: Lists, letter: string, dimmable: bool, d: Outputs): Lists
    requires Numeric(d)
    decreases d
  {
    if d.Nothing? then l
    else AddOutputs(AddOne(l, letter, dimmable, Int(d.key).value, d.value), letter, dimmable, d.rest)
  }

  predicate AllNumeric(s: Subs) {
    s.Sub? ==> (s.first.ModuleSub? ==> Numeric(s.first.outputs)) && AllNumeric(s.rest)
  }

  function AddSubs(l: Lists, s: Subs): Lists
    requires AllNumeric(s)
    decreases s
  {
    if s.NoSubs? then l
    else if s.first.MoodSub? then AddSubs(l, s.rest)
    else AddSubs(AddOutputs(l, s.first.letter, s.first.dimmable, s.first.outputs), s.rest)
  }

  /** `parse_output_lists` */
  method ParseOutputLists(subs: Subs) returns (l: Lists)
    requires AllNumeric(subs)
    ensures l == AddSubs(EMPTY_LISTS, subs)
  {
    var lights: seq<OutputKey>, dimmers: set<OutputKey> := [], {};
    var shutters: seq<ShutterConfig>, switches: seq<OutputKey> := [], [];
    var rest := subs;
    while rest.Sub?
      invariant AllNumeric(rest)
      invariant AddSubs(Lists(lights, dimmers, shutters, switches), rest) == AddSubs(EMPTY_LISTS, subs)
      decreases rest
    {
      if rest.first.ModuleSub? {
        var letter, dimmable, items := rest.first.letter, rest.first.dimmable, rest.first.outputs;
        ghost var before := Lists(lights, dimmers, shutters, switches);
        while items.Item?
          invariant Numeric(items)
          invariant AddOutputs(Lists(lights, dimmers, shutters, switches), letter, dimmable, items)
                    == AddOutputs(before, letter, dimmable, rest.first.outputs)
          decreases items
        {
          var output := Int(items.key).value;
          match items.value {
            case LightCfg(_) =>
              if dimmable {
                dimmers := dimmers + {(letter, output as int)};
              } else {
                lights := lights + [(letter, output as int)];
              }
            case ShutterCfg(down, _) => shutters := shutters + [ShutterConfig(letter, output, down)];
            case SwitchCfg(_) => switches := switches + [(letter, output as int)];
          }
          items := items.rest;
        }
      }
      rest := rest.rest;
    }
    l := Lists(lights, dimmers, shutters, switches);
  }

  // ---------------------------------------------------------------------------------------------
  // Each list says what is stored
  // ---------------------------------------------------------------------------------------------

  /** Whether the module with this letter is dimmable, and what it stores under output `n`. */
  function StoredAt(s: Subs, letter: string, n: nat): Option<(bool, OutputCfg)> {
    if s.NoSubs? then None
    else if s.first.ModuleSub? && s.first.letter == letter then
      var cfg := CfgAt(s.first.outputs, n);
      if cfg.Some? then Some((s.first.dimmable, cfg.value)) else None
    else StoredAt(s.rest, letter, n)
  }

  lemma {:induction false} ModuleLists(l: Lists, letter: string, dimmable: bool, d: Outputs, key: OutputKey, n: nat)
    requires KeysOk(d) && Numeric(d) && key.1 == n
    ensures var t, cfg := AddOutputs(l, letter, dimmable, d), CfgAt(d, n);
            var mine := key.0 == letter && cfg.Some?;
            && (key in t.lights <==> key in l.lights || (mine && cfg.value.LightCfg? && !dimmable))
            && (key in t.dimmers <==> key in l.dimmers || (mine && cfg.value.LightCfg? && dimmable))
            && (key in t.switches <==> key in l.switches || (mine && cfg.value.SwitchCfg?))
    decreases d
  {
    if d.Item? {
      var m := Int(d.key).value;
      ModuleLists(AddOne(l, letter, dimmable, m, d.value), letter, dimmable, d.rest, key, n);
      IntOfStr(n);
      GetKeys(d.rest, d.key);
      assert key == (key.0, key.1);
    }
  }

  lemma {:induction false} ModuleShutters(l: Lists, letter: string, dimmable: bool, d: Outputs, x: ShutterConfig, n: nat)
    requires KeysOk(d) && Numeric(d) && x.upOutput == n
    ensures var t, cfg := AddOutputs(l, letter, dimmable, d), CfgAt(d, n);
            x in t.shutters
            <==> || x in l.shutters
                 || (x.letter == letter && cfg.Some? && cfg.value.ShutterCfg? && cfg.value.downOutput == x.downOutput)
    decreases d
  {
    if d.Item? {
      var m := Int(d.key).value;
      ModuleShutters(AddOne(l, letter, dimmable, m, d.value), letter, dimmable, d.rest, x, n);
      IntOfStr(n);
      GetKeys(d.rest, d.key);
    }
  }

  lemma {:induction false} StoredHasLetter(s: Subs, letter: string, n: nat)
    requires letter !in Letters(s, None)
    ensures StoredAt(s, letter, n) == None
  {
    if s.Sub? {
      StoredHasLetter(s.rest, letter, n);
    }
  }

  lemma {:induction false} SubsLists(l: Lists, s: Subs, key: OutputKey, n: nat)
    requires SubsOk(s) && AllNumeric(s) && key.1 == n
    ensures var t, at := AddSubs(l, s), StoredAt(s, key.0, n);
            && (key in t.lights <==> key in l.lights || (at.Some? && at.value.1.LightCfg? && !at.value.0))
            && (key in t.dimmers <==> key in l.dimmers || (at.Some? && at.value.1.LightCfg? && at.value.0))
            && (key in t.switches <==> key in l.switches || (at.Some? && at.value.1.SwitchCfg?))
    decreases s
  {
    if s.Sub? {
      if s.first.MoodSub? {
        SubsLists(l, s.rest, key, n);
      } else {
        var x := s.first;
        ModuleLists(l, x.letter, x.dimmable, x.outputs, key, n);
        SubsLists(AddOutputs(l, x.letter, x.dimmable, x.outputs), s.rest, key, n);
        LettersAreUids(s.rest, x.letter);
        if x.letter == key.0 {
          StoredHasLetter(s.rest, key.0, n);
        }
      }
    }
  }

  lemma {:induction false} SubsShutters(l: Lists, s: Subs, x: ShutterConfig, n: nat)
    requires SubsOk(s) && AllNumeric(s) && x.upOutput == n
    ensures var t, at := AddSubs(l, s), StoredAt(s, x.letter, n);
            x in t.shutters
            <==> x in l.shutters || (at.Some? && at.value.1.ShutterCfg? && at.value.1.downOutput == x.downOutput)
    decreases s
  {
    if s.Sub? {
      if s.first.MoodSub? {
        SubsShutters(l, s.rest, x, n);
      } else {
        var y := s.first;
        ModuleShutters(l, y.letter, y.dimmable, y.outputs, x, n);
        SubsShutters(AddOutputs(l, y.letter, y.dimmable, y.outputs), s.rest, x, n);
        LettersAreUids(s.rest, y.letter);
        if y.letter == x.letter {
          StoredHasLetter(s.rest, x.letter, n);
        }
      }
    }
  }

  /** In every entry the flows can store, stale edits included: an output is in the list its stored
      type and its module's dimmable flag call for and in no other, and a shutter stored under number
      n with down output m is the shutter that goes up on n and down on m. */
  lemma ListsSayWhatIsStored(l: Lists, s: Subs, letter: string, n: nat, down: int)
    requires SubsOk(s) && AllNumeric(s) && l == AddSubs(EMPTY_LISTS, s)
    ensures var key: OutputKey, at := (letter, n), StoredAt(s, letter, n);
            && (key in l.lights <==> at.Some? && at.value.1.LightCfg? && !at.value.0)
            && (key in l.dimmers <==> at.Some? && at.value.1.LightCfg? && at.value.0)
            && (key in l.switches <==> at.Some? && at.value.1.SwitchCfg?)
            && (ShutterConfig(letter, n, down) in l.shutters
                <==> at.Some? && at.value.1.ShutterCfg? && at.value.1.downOutput == down)
  {
    SubsLists(EMPTY_LISTS, s, (letter, n), n);
    SubsShutters(EMPTY_LISTS, s, ShutterConfig(letter, n, down), n);
  }

  /** `StoredAt` is what the one module subentry with that letter holds. */
  lemma {:induction false} StoredAtExactly(s: Subs, x: Subentry, n: nat)
    requires SubsOk(s) && Contains(s, x) && x.ModuleSub?
    ensures var at := StoredAt(s, x.letter, n);
            && (at.Some? <==> CfgAt(x.outputs, n).Some?)
            && (at.Some? ==> at.value == (x.dimmable, CfgAt(x.outputs, n).value))
  {
    if s.first != x {
      StoredAtExactly(s.rest, x, n);
      if s.first.ModuleSub? {
        LettersAreUids(s.rest, s.first.letter);
        LettersAndMoods(s.rest, None, x.letter, 0);
      }
    }
  }

  // ---------------------------------------------------------------------------------------------
  // Who owns a key
  // ---------------------------------------------------------------------------------------------

  function Hits(s: seq<ShutterConfig>, key: OutputKey): nat {
    if s == [] then 0
    else
      var last := s[|s| - 1];
      Hits(s[..|s| - 1], key) + (if last.Up() == key then 1 else 0) + if last.Down() == key then 1 else 0
  }

  /** How many list entries own a key, over all four lists. */
  function Owners(l: Lists, key: OutputKey): nat {
    multiset(l.lights)[key] + (if key in l.dimmers then 1 else 0) + multiset(l.switches)[key] + Hits(l.shutters, key)
  }

  /** Whether a module of the entry claims the output. */
  predicate Claimed(s: Subs, key: OutputKey) {
    s.Sub? && ((s.first.ModuleSub? && s.first.letter == key.0 && key.1 in Occupied(s.first.outputs)) || Claimed(s.rest, key))
  }

  lemma HitsSnoc(s: seq<ShutterConfig>, x: ShutterConfig, key: OutputKey)
    ensures Hits(s + [x], key) == Hits(s, key) + (if x.Up() == key then 1 else 0) + if x.Down() == key then 1 else 0
  {
    assert (s + [x])[..|s|] == s;
  }

  lemma OwnersOfOne(l: Lists, letter: string, dimmable: bool, itemKey: string, cfg: OutputCfg, key: OutputKey)
    requires EntryOk(itemKey, cfg)
    requires key.0 == letter && key.1 in Claims(itemKey, cfg) ==> key !in l.dimmers
    ensures Owners(AddOne(l, letter, dimmable, Int(itemKey).value, cfg), key)
            == Owners(l, key) + if key.0 == letter && key.1 in Claims(itemKey, cfg) then 1 else 0
  {
    var output: int := Int(itemKey).value;
    assert key == (key.0, key.1);
    if cfg.ShutterCfg? {
      HitsSnoc(l.shutters, ShutterConfig(letter, output, cfg.downOutput), key);
    }
  }

  lemma {:induction false} OwnersOfModule(l: Lists, letter: string, dimmable: bool, d: Outputs, key: OutputKey)
    requires WellFormed(d) && Numeric(d)
    requires key.0 == letter && key.1 in Occupied(d) ==> key !in l.dimmers
    ensures Owners(AddOutputs(l, letter, dimmable, d), key)
            == Owners(l, key) + if key.0 == letter && key.1 in Occupied(d) then 1 else 0
    decreases d
  {
    if d.Item? {
      OwnersOfOne(l, letter, dimmable, d.key, d.value, key);
      var l' := AddOne(l, letter, dimmable, Int(d.key).value, d.value);
      if key in l'.dimmers && key !in l.dimmers {
        assert key.1 in Claims(d.key, d.value);
      }
      OwnersOfModule(l', letter, dimmable, d.rest, key);
    }
  }

  lemma {:induction false} OkIsNumeric(s: Subs)
    requires SubsOk(s)
    ensures AllNumeric(s)
  {
    if s.Sub? {
      OkIsNumeric(s.rest);
      if s.first.ModuleSub? {
        KeysAreNumeric(s.first.outputs);
      }
    }
  }

  lemma {:induction false} ClaimedHasLetter(s: Subs, key: OutputKey)
    requires Claimed(s, key)
    ensures key.0 in Letters(s, None)
  {
    if !(s.first.ModuleSub? && s.first.letter == key.0) {
      ClaimedHasLetter(s.rest, key);
    }
  }

  lemma {:induction false} OwnersOfSubs(l: Lists, s: Subs, key: OutputKey)
    requires SubsOk(s) && AllOutputsOk(s) && AllNumeric(s)
    requires Claimed(s, key) ==> Owners(l, key) == 0
    ensures Owners(AddSubs(l, s), key) == Owners(l, key) + if Claimed(s, key) then 1 else 0
    decreases s
  {
    if s.Sub? {
      if s.first.MoodSub? {
        OwnersOfSubs(l, s.rest, key);
      } else {
        var x := s.first;
        var l' := AddOutputs(l, x.letter, x.dimmable, x.outputs);
        OwnersOfModule(l, x.letter, x.dimmable, x.outputs, key);
        LettersAreUids(s.rest, x.letter);
        if Claimed(s.rest, key) {
          ClaimedHasLetter(s.rest, key);
          assert key.0 != x.letter;
        }
        OwnersOfSubs(l', s.rest, key);
      }
    }
  }

  /** The lists of an entry that satisfies the allocator's invariant. */
  ghost predicate ListsOf(l: Lists, s: Subs) {
    SubsOk(s) && AllOutputsOk(s) && AllNumeric(s) && l == AddSubs(EMPTY_LISTS, s)
  }

  /** Every claimed output is owned by exactly one entry of exactly one list, every other by none. */
  lemma OwnedExactlyOnce(l: Lists, s: Subs, key: OutputKey)
    requires ListsOf(l, s)
    ensures Owners(l, key) == if Claimed(s, key) then 1 else 0
  {
    OwnersOfSubs(EMPTY_LISTS, s, key);
  }

  /** A claimed output is one of 1..12 on a module whose letter is one of A-Z. */
  lemma {:induction false} ClaimedAddressable(s: Subs, key: OutputKey)
    requires SubsOk(s) && AllOutputsOk(s) && Claimed(s, key)
    ensures Addressable(key.0, key.1) && 1 <= key.1 <= OUTPUTS_PER_MODULE && UpperLetter(key.0)
  {
    if s.first.ModuleSub? && s.first.letter == key.0 && key.1 in Occupied(s.first.outputs) {
      WellFormedOccupied(s.first.outputs);
    } else {
      ClaimedAddressable(s.rest, key);
    }
  }

  // ---------------------------------------------------------------------------------------------
  // Commands of different entities
  // ---------------------------------------------------------------------------------------------

  datatype Entity = OnOff(key: OutputKey) | Cover(shutter: ShutterConfig)

  /** The entities the lists give rise to. */
  predicate Has(l: Lists, e: Entity) {
    match e
    case OnOff(key) => key in l.lights || key in l.dimmers || key in l.switches
    case Cover(s) => s in l.shutters
  }

  function KeysOf(e: Entity): set<OutputKey> {
    match e
    case OnOff(key) => {key}
    case Cover(s) => {s.Up(), s.Down()}
  }

  /** The commands an entity issues. */
  predicate Issues(e: Entity, c: Command) {
    match e
    case OnOff(key) => (c.TurnOn? || c.TurnOff?) && c.key == key
    case Cover(s) => (c.OpenShutter? || c.CloseShutter? || c.StopShutter?) && c.shutter == s
  }

  lemma {:induction false} HitsOfMember(s: seq<ShutterConfig>, x: ShutterConfig, key: OutputKey)
    requires x in s && (x.Up() == key || x.Down() == key)
    ensures Hits(s, key) >= 1 && (x.Up() == x.Down() ==> Hits(s, key) >= 2)
  {
    var last := s[|s| - 1];
    if x != last {
      assert x in s[..|s| - 1];
      HitsOfMember(s[..|s| - 1], x, key);
    }
  }

  lemma {:induction false} HitsOfTwo(s: seq<ShutterConfig>, x: ShutterConfig, y: ShutterConfig, key: OutputKey)
    requires x in s && y in s && x != y
    requires (x.Up() == key || x.Down() == key) && (y.Up() == key || y.Down() == key)
    ensures Hits(s, key) >= 2
  {
    var shorter, last := s[..|s| - 1], s[|s| - 1];
    assert forall z :: z in s ==> z == last || z in shorter;
    if x == last {
      HitsOfMember(shorter, y, key);
    } else if y == last {
      HitsOfMember(shorter, x, key);
    } else {
      HitsOfTwo(shorter, x, y, key);
    }
  }

  lemma OwnerOfEntity(l: Lists, e: Entity, key: OutputKey)
    requires Has(l, e) && key in KeysOf(e)
    ensures Owners(l, key) >= 1
    ensures e.Cover? ==> Hits(l.shutters, key) >= 1
    ensures e.OnOff? ==> Owners(l, key) >= Hits(l.shutters, key) + 1
  {
    if e.Cover? {
      HitsOfMember(l.shutters, e.shutter, key);
    }
  }

  /** Two entities of a well-formed entry share no output. */
  lemma EntitiesDisjoint(l: Lists, s: Subs, a: Entity, b: Entity)
    requires ListsOf(l, s) && Has(l, a) && Has(l, b) && a != b
    ensures KeysOf(a) !! KeysOf(b)
  {
    if key :| key in KeysOf(a) && key in KeysOf(b) {
      OwnedExactlyOnce(l, s, key);
      OwnerOfEntity(l, a, key);
      OwnerOfEntity(l, b, key);
      if a.Cover? && b.Cover? {
        HitsOfTwo(l.shutters, a.shutter, b.shutter, key);
      }
      assert false;
    }
  }

  lemma WritesOwnKeys(dimmers: set<OutputKey>, e: Entity, c: Command)
    requires Issues(e, c)
    ensures Sent(dimmers, c).key in KeysOf(e)
    ensures forall i :: 0 <= i < |LocalWrites(dimmers, c)| ==> LocalWrites(dimmers, c)[i].key in KeysOf(e)
  {
  }

  lemma {:induction false} ReplayElsewhere(states: States, notes: seq<Assign>, key: OutputKey)
    requires forall i :: 0 <= i < |notes| ==> notes[i].key != key
    ensures Cache.Get(Replay(states, notes), key) == Cache.Get(states, key)
  {
    if notes != [] {
      ReplayElsewhere(states, notes[..|notes| - 1], key);
    }
  }

  /** The cache after a command, which its send may or may not have reached. */
  function Outcome(dimmers: set<OutputKey>, states: States, c: Command, sent: bool): States {
    if sent then Replay(states, LocalWrites(dimmers, c)) else states
  }

  /** In every entry the flows can produce: a command of one entity leaves the cached state of every
      other entity alone, and is sent to an output that entity does not own. */
  lemma CommandsDoNotInterfere(l: Lists, s: Subs, a: Entity, b: Entity, c: Command, states: States, sent: bool)
    requires ListsOf(l, s) && Has(l, a) && Has(l, b) && a != b && Issues(a, c)
    ensures forall key :: key in KeysOf(b) ==> Cache.Get(Outcome(l.dimmers, states, c, sent), key) == Cache.Get(states, key)
    ensures Sent(l.dimmers, c).key !in KeysOf(b)
  {
    EntitiesDisjoint(l, s, a, b);
    WritesOwnKeys(l.dimmers, a, c);
    forall key | key in KeysOf(b)
      ensures Cache.Get(Outcome(l.dimmers, states, c, sent), key) == Cache.Get(states, key)
    {
      if sent {
        ReplayElsewhere(states, LocalWrites(l.dimmers, c), key);
      }
    }
  }

  /** On the wire too: such a command is always encodable, two entities never send the same frame,
      and off module S none of them is taken for a mood. */
  lemma FramesDoNotCollide(l: Lists, s: Subs, a: Entity, b: Entity, ca: Command, cb: Command, mood: int)
    requires ListsOf(l, s) && Has(l, a) && Has(l, b) && a != b && Issues(a, ca) && Issues(b, cb)
    requires ca.TurnOn? && ca.brightness.Some? ==> ca.brightness.value <= 255
    ensures CommandFrame(l.dimmers, ca).Built?
    ensures CommandFrame(l.dimmers, ca) != CommandFrame(l.dimmers, cb)
    ensures BuildMoodFrame(mood).Built? && Sent(l.dimmers, ca).key.0 != "S" ==>
              CommandFrame(l.dimmers, ca) != BuildMoodFrame(mood)
  {
    var wa, wb := Sent(l.dimmers, ca), Sent(l.dimmers, cb);
    EntitiesDisjoint(l, s, a, b);
    WritesOwnKeys(l.dimmers, a, ca);
    WritesOwnKeys(l.dimmers, b, cb);
    OwnerOfEntity(l, a, wa.key);
    OwnedExactlyOnce(l, s, wa.key);
    ClaimedAddressable(s, wa.key);
    ConfiguredWritesAreBuilt(l.dimmers, ca);
    if CommandFrame(l.dimmers, ca) == CommandFrame(l.dimmers, cb) {
      StateFramesInjective(wa.key.0, wa.key.1, wa.value, wb.key.0, wb.key.1, wb.value);
    }
    if BuildMoodFrame(mood).Built? {
      MoodCollision(wa.key.0, wa.key.1, wa.value, mood);
    }
  }

  // ---------------------------------------------------------------------------------------------
  // Shutters
  // ---------------------------------------------------------------------------------------------

  predicate On(states: States, key: OutputKey) {
    Cache.Get(states, key).GetOr(0) > 0
  }

  ghost predicate NoneDrivenBothWays(l: Lists, states: States) {
    forall s :: s in l.shutters ==> !(On(states, s.Up()) && On(states, s.Down()))
  }

  datatype Issued = Issued(source: Entity, command: Command, sent: bool)

  function RunCommands(dimmers: set<OutputKey>, states: States, cs: seq<Issued>): States {
    if cs == [] then states
    else Outcome(dimmers, RunCommands(dimmers, states, cs[..|cs| - 1]), cs[|cs| - 1].command, cs[|cs| - 1].sent)
  }

  lemma ShutterCommandExclusive(dimmers: set<OutputKey>, states: States, x: ShutterConfig, c: Command)
    requires Issues(Cover(x), c) && x.Up() != x.Down()
    ensures var after := Replay(states, LocalWrites(dimmers, c));
            !(On(after, x.Up()) && On(after, x.Down()))
  {
    var w := LocalWrites(dimmers, c);
    ReplayTwo(states, w[0], w[1]);
  }

  lemma UpIsNotDown(l: Lists, s: Subs, x: ShutterConfig)
    requires ListsOf(l, s) && x in l.shutters
    ensures x.Up() != x.Down()
  {
    if x.Up() == x.Down() {
      HitsOfMember(l.shutters, x, x.Up());
      OwnedExactlyOnce(l, s, x.Up());
      assert false;
    }
  }

  /** Over every run of commands, sent or failed, from a cache in which no shutter is driven both
      ways (all off, say), none ever is. */
  lemma {:induction false} ShuttersNeverBothWays(l: Lists, s: Subs, states: States, cs: seq<Issued>)
    requires ListsOf(l, s) && NoneDrivenBothWays(l, states)
    requires forall i :: 0 <= i < |cs| ==> Has(l, cs[i].source) && Issues(cs[i].source, cs[i].command)
    ensures NoneDrivenBothWays(l, RunCommands(l.dimmers, states, cs))
  {
    if cs != [] {
      var before, last := RunCommands(l.dimmers, states, cs[..|cs| - 1]), cs[|cs| - 1];
      ShuttersNeverBothWays(l, s, states, cs[..|cs| - 1]);
      var after := Outcome(l.dimmers, before, last.command, last.sent);
      forall x | x in l.shutters
        ensures !(On(after, x.Up()) && On(after, x.Down()))
      {
        if last.source == Cover(x) {
          UpIsNotDown(l, s, x);
          ShutterCommandExclusive(l.dimmers, before, x, last.command);
        } else {
          CommandsDoNotInterfere(l, s, last.source, Cover(x), last.command, before, last.sent);
        }
      }
    }
  }
}
