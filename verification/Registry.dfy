/** Entity registry reconciliation: prune, then platform setup. */
module Registry {
  import opened Wrappers
  import opened Dict
  import opened ModuleFlow
  import opened ConfigEntry

  /** A registry entry of this config entry; hub entities belong to no subentry. */
  datatype RegEntry = RegEntry(uniqueId: string, subentryId: Option<string>)

  /** The platform key and the unique id that light gives output number `n`; switch and cover alike. */
  function LightUid(subId: string, n: nat): string {
    subId + "-" + ("light_" + Str(n))
  }

  function SwitchUid(subId: string, n: nat): string {
    subId + "-" + ("switch_" + Str(n))
  }

  /** A cover is named after its up output. */
  function CoverUid(subId: string, up: nat): string {
    subId + "-" + ("cover_" + Str(up))
  }

  /** The unique id of the one entity that the platforms make of an output. */
  function EntityUid(subId: string, cfg: OutputCfg, n: nat): string {
    match cfg
    case LightCfg(_) => LightUid(subId, n)
    case SwitchCfg(_) => SwitchUid(subId, n)
    case ShutterCfg(_, _) => CoverUid(subId, n)
  }

  /** `_expected_unique_ids`, which uses the stored key as it is. */
  function ExpectedUid(subId: string, cfg: OutputCfg, key: string): string {
    match cfg
    case LightCfg(_) => subId + "-light_" + key
    case SwitchCfg(_) => subId + "-switch_" + key
    case ShutterCfg(_, _) => subId + "-cover_" + key
  }

  function Expected(subId: string, d: Outputs): set<string> {
    if d.Nothing? then {} else {ExpectedUid(subId, d.value, d.key)} + Expected(subId, d.rest)
  }

  /** What light, switch and cover create between them for a module. */
  function Created(subId: string, d: Outputs): set<string>
    requires Numeric(d)
  {
    if d.Nothing? then {} else {EntityUid(subId, d.value, Int(d.key).value)} + Created(subId, d.rest)
  }

  lemma ExpectedUidIs(subId: string, cfg: OutputCfg, n: nat)
    ensures ExpectedUid(subId, cfg, Str(n)) == EntityUid(subId, cfg, n)
  {
    match cfg {
      case LightCfg(_) => assert "-light_" == "-" + "light_"; assert LightUid(subId, n) == subId + "-light_" + Str(n);
      case SwitchCfg(_) => assert "-switch_" == "-" + "switch_"; assert SwitchUid(subId, n) == subId + "-switch_" + Str(n);
      case ShutterCfg(_, _) => assert "-cover_" == "-" + "cover_"; assert CoverUid(subId, n) == subId + "-cover_" + Str(n);
    }
  }

  /** The three formats, as a user finds them in the registry. */
  lemma IdFormats(subId: string, name: string, n: nat, down: int)
    ensures EntityUid(subId, LightCfg(name), n) == subId + "-light_" + Str(n)
    ensures EntityUid(subId, SwitchCfg(name), n) == subId + "-switch_" + Str(n)
    ensures EntityUid(subId, ShutterCfg(down, name), n) == subId + "-cover_" + Str(n)
  {
    ExpectedUidIs(subId, LightCfg(name), n);
    ExpectedUidIs(subId, SwitchCfg(name), n);
    ExpectedUidIs(subId, ShutterCfg(down, name), n);
  }

  /** The two agree: this is where `str(int(k)) == k` is needed. */
  lemma {:induction false} ExpectedIsCreated(subId: string, d: Outputs)
    requires KeysOk(d) && Numeric(d)
    ensures Expected(subId, d) == Created(subId, d)
  {
    if d.Item? {
      ExpectedIsCreated(subId, d.rest);
      ExpectedUidIs(subId, d.value, Int(d.key).value);
    }
  }

  /** A module's entities are one light per stored light, one switch per switch and one cover per
      shutter, by number. */
  lemma {:induction false} CreatedExactly(subId: string, d: Outputs, u: string)
    requires KeysOk(d) && Numeric(d)
    ensures u in Created(subId, d)
            <==> exists n: nat :: CfgAt(d, n).Some? && u == EntityUid(subId, CfgAt(d, n).value, n)
  {
    if d.Item? {
      CreatedExactly(subId, d.rest, u);
      var m := Int(d.key).value;
      assert CfgAt(d, m) == Some(d.value);
      GetKeys(d.rest, d.key);
      forall n: nat
        ensures CfgAt(d, n) == if n == m then Some(d.value) else CfgAt(d.rest, n)
      {
        IntOfStr(n);
      }
      if n: nat :| CfgAt(d.rest, n).Some? && u == EntityUid(subId, CfgAt(d.rest, n).value, n) {
        assert n != m;
        assert CfgAt(d, n) == CfgAt(d.rest, n);
      }
    }
  }

  function ModuleIds(s: Subs): set<string> {
    if s.NoSubs? then {} else (if s.first.ModuleSub? then {s.first.id} else {}) + ModuleIds(s.rest)
  }

  function AllExpected(s: Subs): set<string> {
    if s.NoSubs? then {}
    else (if s.first.ModuleSub? then Expected(s.first.id, s.first.outputs) else {}) + AllExpected(s.rest)
  }

  /** Entities of the three platforms for all module subentries. */
  function AllCreated(s: Subs): set<RegEntry> {
    if s.NoSubs? then {}
    else
      (if s.first.ModuleSub? && Numeric(s.first.outputs)
       then set u | u in Created(s.first.id, s.first.outputs) :: RegEntry(u, Some(s.first.id))
       else {})
      + AllCreated(s.rest)
  }

  /** What a prune leaves. */
  function Pruned(entries: set<RegEntry>, s: Subs): set<RegEntry> {
    set e | e in entries && (e.subentryId.None? || e.subentryId.value !in ModuleIds(s) || e.uniqueId in AllExpected(s))
  }

  /** Platform setup: `get_or_create` by unique id, which also moves the entry to its subentry. */
  function SetUp(entries: set<RegEntry>, s: Subs): set<RegEntry> {
    (set e | e in entries && forall c :: c in AllCreated(s) ==> c.uniqueId != e.uniqueId) + AllCreated(s)
  }

  /** `_expected_unique_ids` */
  method ExpectedUniqueIds(subId: string, outputs: Outputs) returns (expected: set<string>)
    ensures expected == Expected(subId, outputs)
  {
    expected := {};
    var items := outputs;
    while items.Item?
      invariant expected + Expected(subId, items) == Expected(subId, outputs)
      decreases items
    {
      match items.value {
        case LightCfg(_) => expected := expected + {subId + "-light_" + items.key};
        case SwitchCfg(_) => expected := expected + {subId + "-switch_" + items.key};
        case ShutterCfg(_, _) => expected := expected + {subId + "-cover_" + items.key};
      }
      items := items.rest;
    }
  }

  class EntityRegistry {
    var entries: set<RegEntry>

    constructor (entries: set<RegEntry>)
      ensures this.entries == entries
    {
      this.entries := entries;
    }

    /** `_prune_stale_entities` */
    method Prune(s: Subs)
      modifies this
      ensures entries == Pruned(old(entries), s)
    {
      var moduleIds, expected: set<string> := ModuleIds(s), {};
      var subs := s;
      while subs.Sub?
        invariant expected + AllExpected(subs) == AllExpected(s) && entries == old(entries)
        decreases subs
      {
        if subs.first.ModuleSub? {
          var more := ExpectedUniqueIds(subs.first.id, subs.first.outputs);
          expected := expected + more;
        }
        subs := subs.rest;
      }
      var todo := entries;
      while todo != {}
        invariant todo <= entries <= old(entries)
        invariant Pruned(old(entries), s) == Pruned(todo, s) + (entries - todo)
        decreases todo
      {
        var e :| e in todo;
        todo := todo - {e};
        if e.subentryId.Some? && e.subentryId.value in moduleIds && e.uniqueId !in expected {
          entries := entries - {e};
        }
      }
      assert Pruned({}, s) == {};
    }
  }

  // ---------------------------------------------------------------------------------------------
  // The id format
  // ---------------------------------------------------------------------------------------------

  lemma {:induction false} StrIsDigits(n: nat)
    ensures Digits(Str(n)) && Str(n) != ""
  {
    if n >= 10 {
      StrIsDigits(n / 10);
    }
  }

  /** Splitting at the last underscore is unambiguous. */
  lemma LastUnderscore(a: string, m: string, b: string, n: string)
    requires Digits(m) && Digits(n) && a + "_" + m == b + "_" + n
    ensures a == b && m == n
  {
    var x, y := a + "_" + m, b + "_" + n;
    assert x[|a|] == '_' && y[|b|] == '_';
    assert forall i :: |a| < i < |x| ==> x[i] == m[i - |a| - 1] != '_';
    assert forall i :: |b| < i < |y| ==> y[i] == n[i - |b| - 1] != '_';
    assert |a| == |b|;
    assert a == x[..|a|] && b == y[..|b|];
    assert m == x[|a| + 1..] && n == y[|b| + 1..];
  }

  lemma UidParts(subId: string, cfg: OutputCfg, n: nat)
    ensures EntityUid(subId, cfg, n) == subId + "-" + KindName(cfg) + "_" + Str(n)
  {
    match cfg {
      case LightCfg(_) => assert "light_" == "light" + "_";
      case SwitchCfg(_) => assert "switch_" == "switch" + "_";
      case ShutterCfg(_, _) => assert "cover_" == "cover" + "_";
    }
    assert EntityUid(subId, cfg, n) == subId + "-" + KindName(cfg) + "_" + Str(n);
  }

  function KindName(cfg: OutputCfg): string {
    match cfg
    case LightCfg(_) => "light"
    case SwitchCfg(_) => "switch"
    case ShutterCfg(_, _) => "cover"
  }

  lemma KindFromEnd(s: string, k: OutputCfg, t: string, l: OutputCfg)
    requires s + "-" + KindName(k) == t + "-" + KindName(l)
    ensures s == t && KindName(k) == KindName(l)
  {
    var x, y := s + "-" + KindName(k), t + "-" + KindName(l);
    assert x[|x| - 1] == KindName(k)[|KindName(k)| - 1];
    assert y[|y| - 1] == KindName(l)[|KindName(l)| - 1];
    assert KindName(k) == KindName(l);
    assert s == x[..|s|] && t == y[..|t|];
  }

  /** Unique ids name the subentry, the platform and the output. */
  lemma EntityUidInjective(s: string, k: OutputCfg, m: nat, t: string, l: OutputCfg, n: nat)
    requires EntityUid(s, k, m) == EntityUid(t, l, n)
    ensures s == t && m == n
    ensures (k.LightCfg? <==> l.LightCfg?) && (k.SwitchCfg? <==> l.SwitchCfg?) && (k.ShutterCfg? <==> l.ShutterCfg?)
  {
    UidParts(s, k, m);
    UidParts(t, l, n);
    StrIsDigits(m);
    StrIsDigits(n);
    LastUnderscore(s + "-" + KindName(k), Str(m), t + "-" + KindName(l), Str(n));
    KindFromEnd(s, k, t, l);
    IntOfStr(m);
    IntOfStr(n);
  }

  /** Moods ("...-mood") and hub entities ("..._bus_connected" and the like) do not end in a digit;
      the ids of outputs do. */
  predicate EndsInDigit(u: string) {
    u != "" && '0' <= u[|u| - 1] <= '9'
  }

  lemma {:induction false} CreatedEndInDigit(subId: string, d: Outputs, u: string)
    requires Numeric(d) && u in Created(subId, d)
    ensures EndsInDigit(u)
  {
    var mine := EntityUid(subId, d.value, Int(d.key).value);
    UidParts(subId, d.value, Int(d.key).value);
    if u == mine {
      var digits := Str(Int(d.key).value);
      StrIsDigits(Int(d.key).value);
      assert mine[|mine| - 1] == digits[|digits| - 1];
    } else {
      CreatedEndInDigit(subId, d.rest, u);
    }
  }

  // ---------------------------------------------------------------------------------------------
  // Reconciliation
  // ---------------------------------------------------------------------------------------------

  lemma {:induction false} CreatedFacts(s: Subs, e: RegEntry)
    requires SubsOk(s)
    ensures e in AllCreated(s) ==>
              e.subentryId.Some? && e.subentryId.value in ModuleIds(s) && EndsInDigit(e.uniqueId)
    ensures e.uniqueId in AllExpected(s) <==> exists id :: RegEntry(e.uniqueId, Some(id)) in AllCreated(s)
  {
    if s.Sub? {
      CreatedFacts(s.rest, e);
      if s.first.ModuleSub? {
        var x := s.first;
        KeysAreNumeric(x.outputs);
        ExpectedIsCreated(x.id, x.outputs);
        if e.uniqueId in Created(x.id, x.outputs) {
          CreatedEndInDigit(x.id, x.outputs, e.uniqueId);
          assert RegEntry(e.uniqueId, Some(x.id)) in AllCreated(s);
        }
        if e.uniqueId in AllExpected(s.rest) {
          var id :| RegEntry(e.uniqueId, Some(id)) in AllCreated(s.rest);
          assert RegEntry(e.uniqueId, Some(id)) in AllCreated(s);
        }
      } else {
        assert AllCreated(s) == AllCreated(s.rest);
      }
    }
  }

  /** Over all modules: an entity is created exactly for a stored output of a module subentry, and it
      belongs to that subentry. */
  lemma {:induction false} AllCreatedExactly(s: Subs, e: RegEntry)
    requires SubsOk(s)
    ensures e in AllCreated(s)
            <==> exists x, n: nat :: Contains(s, x) && x.ModuleSub? && e.subentryId == Some(x.id)
                   && CfgAt(x.outputs, n).Some? && e.uniqueId == EntityUid(x.id, CfgAt(x.outputs, n).value, n)
  {
    if s.Sub? {
      AllCreatedExactly(s.rest, e);
      var y := s.first;
      assert Contains(s, y);
      assert forall x :: Contains(s, x) <==> x == y || Contains(s.rest, x);
      if y.ModuleSub? {
        KeysAreNumeric(y.outputs);
        CreatedExactly(y.id, y.outputs, e.uniqueId);
        assert e == RegEntry(e.uniqueId, e.subentryId);
      }
    }
  }

  /** Whatever the registry held before: after prune and platform setup, the entries of the current
      module subentries are exactly those that light, switch and cover create. */
  lemma ReconciledExactly(entries: set<RegEntry>, s: Subs, e: RegEntry)
    requires SubsOk(s)
    requires e.subentryId.Some? && e.subentryId.value in ModuleIds(s)
    ensures e in SetUp(Pruned(entries, s), s) <==> e in AllCreated(s)
  {
    CreatedFacts(s, e);
  }

  /** Mood and hub entries come through both steps unchanged, and nothing else appears among them. */
  lemma OthersUntouched(entries: set<RegEntry>, s: Subs, e: RegEntry)
    requires SubsOk(s)
    requires e.subentryId.None? || e.subentryId.value !in ModuleIds(s)
    ensures e in Pruned(entries, s) <==> e in entries
    ensures !EndsInDigit(e.uniqueId) ==> (e in SetUp(Pruned(entries, s), s) <==> e in entries)
  {
    CreatedFacts(s, e);
    forall c | c in AllCreated(s)
      ensures EndsInDigit(c.uniqueId)
    {
      CreatedFacts(s, c);
    }
  }

  /** A prune is idempotent, and right after prune and setup it removes nothing. */
  lemma PruneIdempotent(entries: set<RegEntry>, s: Subs)
    requires SubsOk(s)
    ensures Pruned(Pruned(entries, s), s) == Pruned(entries, s)
    ensures Pruned(SetUp(Pruned(entries, s), s), s) == SetUp(Pruned(entries, s), s)
  {
    var after := SetUp(Pruned(entries, s), s);
    forall e | e in after
      ensures e in Pruned(after, s)
    {
      CreatedFacts(s, e);
      if e in AllCreated(s) {
        assert RegEntry(e.uniqueId, Some(e.subentryId.value)) == e;
      }
    }
  }
}
