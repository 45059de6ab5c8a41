/** The subentries of a config entry, modules and moods, and the flows that add, edit and import them. */
module ConfigEntry {
  import opened Wrappers
  import opened Dict
  import opened ModuleFlow
  import opened Protocol

  datatype Subentry =
    | ModuleSub(id: string, uniqueId: string, letter: string, dimmable: bool, outputs: Outputs)
    | MoodSub(id: string, uniqueId: string, mood: int)

  /** The subentries in insertion order. */
  datatype Subs = NoSubs | Sub(first: Subentry, rest: Subs)

  function Ids(s: Subs): set<string> {
    if s.NoSubs? then {} else {s.first.id} + Ids(s.rest)
  }

  function UniqueIds(s: Subs): set<string> {
    if s.NoSubs? then {} else {s.first.uniqueId} + UniqueIds(s.rest)
  }

  /** The letters of all module subentries but the one with id `except`. */
  function Letters(s: Subs, except: Option<string>): set<string> {
    if s.NoSubs? then {}
    else (if s.first.ModuleSub? && Some(s.first.id) != except then {s.first.letter} else {}) + Letters(s.rest, except)
  }

  function Moods(s: Subs): set<int> {
    if s.NoSubs? then {} else (if s.first.MoodSub? then {s.first.mood} else {}) + Moods(s.rest)
  }

  function Append(s: Subs, x: Subentry): Subs {
    if s.NoSubs? then Sub(x, NoSubs) else Sub(s.first, Append(s.rest, x))
  }

  function Find(s: Subs, id: string): Option<Subentry> {
    if s.NoSubs? then None else if s.first.id == id then Some(s.first) else Find(s.rest, id)
  }

  function Replace(s: Subs, id: string, x: Subentry): Subs {
    if s.NoSubs? then NoSubs
    else if s.first.id == id then Sub(x, s.rest)
    else Sub(s.first, Replace(s.rest, id, x))
  }

  predicate Contains(s: Subs, x: Subentry) {
    s.Sub? && (s.first == x || Contains(s.rest, x))
  }

  /** The letters are those of the module subentries there are, and the moods those of the moods. */
  lemma {:induction false} LettersAndMoods(s: Subs, except: Option<string>, letter: string, mood: int)
    ensures letter in Letters(s, except)
            <==> exists x :: Contains(s, x) && x.ModuleSub? && x.letter == letter && Some(x.id) != except
    ensures mood in Moods(s) <==> exists x :: Contains(s, x) && x.MoodSub? && x.mood == mood
  {
    if s.Sub? {
      LettersAndMoods(s.rest, except, letter, mood);
      assert Contains(s, s.first);
      assert forall x :: Contains(s, x) <==> x == s.first || Contains(s.rest, x);
    }
  }

  lemma {:induction false} AppendContains(s: Subs, x: Subentry, y: Subentry)
    ensures Contains(Append(s, x), y) <==> Contains(s, y) || y == x
  {
    if s.Sub? {
      AppendContains(s.rest, x, y);
    }
  }

  lemma {:induction false} FindContains(s: Subs, id: string, x: Subentry)
    requires SubsOk(s)
    ensures Find(s, id) == Some(x) <==> Contains(s, x) && x.id == id
  {
    if s.Sub? {
      FindContains(s.rest, id, x);
      if Contains(s.rest, x) {
        IdOfContained(s.rest, x);
      }
    }
  }

  lemma {:induction false} IdOfContained(s: Subs, x: Subentry)
    requires Contains(s, x)
    ensures x.id in Ids(s)
  {
    if s.first != x {
      IdOfContained(s.rest, x);
    }
  }

  /** Updating a subentry replaces that one and no other. */
  lemma {:induction false} ReplaceContains(s: Subs, id: string, x: Subentry, y: Subentry)
    requires SubsOk(s) && Find(s, id).Some?
    ensures Contains(Replace(s, id, x), y) <==> y == x || (Contains(s, y) && y.id != id)
  {
    if s.first.id == id {
      if Contains(s.rest, y) {
        IdOfContained(s.rest, y);
      }
    } else {
      ReplaceContains(s.rest, id, x, y);
    }
  }

  // ---------------------------------------------------------------------------------------------
  // Module letters
  // ---------------------------------------------------------------------------------------------

  predicate IsSpace(c: char) {
    || '\U{0009}' <= c <= '\U{000d}' || '\U{001c}' <= c <= '\U{0020}' || c == '\U{0085}' || c == '\U{00a0}' || c == '\U{1680}'
    || '\U{2000}' <= c <= '\U{200a}' || c == '\U{2028}' || c == '\U{2029}' || c == '\U{202f}' || c == '\U{205f}' || c == '\U{3000}'
  }

  function StripLeft(s: string): string {
    if s != "" && IsSpace(s[0]) then StripLeft(s[1..]) else s
  }

  function StripRight(s: string): string {
    if s != "" && IsSpace(s[|s| - 1]) then StripRight(s[..|s| - 1]) else s
  }

  /** `upper` on the characters that can become an ASCII letter: a-z, dotless i and long s. */
  function UpperChar(c: char): char {
    if 'a' <= c <= 'z' then (c as int - 32) as char
    else if c == '\U{0131}' then 'I'
    else if c == '\U{017f}' then 'S'
    else c
  }

  function Upper(s: string): string {
    seq(|s|, i requires 0 <= i < |s| => UpperChar(s[i]))
  }

  predicate IsAsciiAlpha(c: char) {
    'A' <= c <= 'Z' || 'a' <= c <= 'z'
  }

  /** `_validate_module`: the letter is accepted. */
  predicate ValidModule(letter: string) {
    |letter| == 1 && IsAsciiAlpha(letter[0])
  }

  predicate UpperLetter(letter: string) {
    |letter| == 1 && 'A' <= letter[0] <= 'Z'
  }

  /** What the flows make of the text a user typed. */
  function Normalized(raw: string): string {
    Upper(StripRight(StripLeft(raw)))
  }

  /** After strip and upper, a letter is accepted exactly when it is one of A-Z. */
  lemma NormalizedIsUpper(raw: string)
    ensures ValidModule(Normalized(raw)) <==> UpperLetter(Normalized(raw))
  {
    var s := StripRight(StripLeft(raw));
    if |s| == 1 {
      assert Normalized(raw)[0] == UpperChar(s[0]);
    }
  }

  lemma {:induction false} StripSpaces(before: string, c: char, after: string)
    requires !IsSpace(c)
    requires forall i :: 0 <= i < |before| ==> IsSpace(before[i])
    requires forall i :: 0 <= i < |after| ==> IsSpace(after[i])
    ensures StripRight(StripLeft(before + [c] + after)) == [c]
    decreases |before| + |after|
  {
    var s := before + [c] + after;
    if before != [] {
      assert s[1..] == before[1..] + [c] + after;
      StripSpaces(before[1..], c, after);
    } else {
      assert StripLeft(s) == s;
      StripTail(c, after);
      assert s == [c] + after;
    }
  }

  lemma {:induction false} StripTail(c: char, after: string)
    requires !IsSpace(c) && forall i :: 0 <= i < |after| ==> IsSpace(after[i])
    ensures StripRight([c] + after) == [c]
  {
    var s := [c] + after;
    if after == [] {
      assert s == [c];
    } else {
      assert s[..|s| - 1] == [c] + after[..|after| - 1];
      StripTail(c, after[..|after| - 1]);
    }
  }

  /** Whatever space surrounds it, a letter is taken as its upper case and as no other letter. */
  lemma LetterTyped(before: string, c: char, after: string)
    requires IsAsciiAlpha(c)
    requires forall i :: 0 <= i < |before| ==> IsSpace(before[i])
    requires forall i :: 0 <= i < |after| ==> IsSpace(after[i])
    ensures var letter := Normalized(before + [c] + after);
            && ValidModule(letter)
            && ('A' <= c <= 'Z' ==> letter == [c])
            && ('a' <= c <= 'z' ==> 'A' <= letter[0] <= 'Z' && letter[0] as int - 'A' as int == c as int - 'a' as int)
  {
    StripSpaces(before, c, after);
  }

  const MODULES_PER_CONTROLLER: nat := 18

  function SlotLetter(b: Byte): Option<string> {
    if b == 0 || b >= 128 || !IsAsciiAlpha(b as char) then None
    else Some([UpperChar(b as char)])
  }

  /** The active slots among the first `n`, each with its position. */
  function Slots(data: seq<Byte>, n: nat): seq<(string, nat)>
    requires n <= |data|
  {
    if n == 0 then []
    else
      var letter := SlotLetter(data[n - 1]);
      Slots(data, n - 1) + if letter.Some? then [(letter.value, n - 1)] else []
  }

  /** A slot is reported exactly if its byte is an ASCII letter, as that letter in upper case. */
  lemma {:induction false} SlotsExactly(data: seq<Byte>, n: nat, letter: string, i: nat)
    requires n <= |data|
    ensures (letter, i) in Slots(data, n)
            <==> i < n && |letter| == 1 && 'A' <= letter[0] <= 'Z'
                 && (data[i] == letter[0] as int || data[i] == letter[0] as int + 32)
  {
    if n > 0 {
      SlotsExactly(data, n - 1, letter, i);
      assert |letter| == 1 ==> letter == [letter[0]];
    }
  }

  /** Slots are reported in their order, each at most once. */
  lemma {:induction false} SlotsInOrder(data: seq<Byte>, n: nat)
    requires n <= |data|
    ensures forall j :: 0 <= j < |Slots(data, n)| ==> Slots(data, n)[j].1 < n
    ensures forall j, k :: 0 <= j < k < |Slots(data, n)| ==> Slots(data, n)[j].1 < Slots(data, n)[k].1
  {
    if n > 0 {
      SlotsInOrder(data, n - 1);
    }
  }

  /** `parse_config_response`: every letter it reports is one of A-Z; letters may repeat. */
  method ParseConfigResponse(data: seq<Byte>) returns (result: seq<(string, nat)>)
    ensures |data| < MODULES_PER_CONTROLLER ==> result == []
    ensures |data| >= MODULES_PER_CONTROLLER ==> result == Slots(data, MODULES_PER_CONTROLLER)
    ensures forall i :: 0 <= i < |result| ==> UpperLetter(result[i].0) && result[i].1 < MODULES_PER_CONTROLLER
  {
    result := [];
    if |data| < MODULES_PER_CONTROLLER {
      return;
    }
    for i := 0 to MODULES_PER_CONTROLLER
      invariant result == Slots(data, i)
      invariant forall j :: 0 <= j < |result| ==> UpperLetter(result[j].0) && result[j].1 < MODULES_PER_CONTROLLER
    {
      var letter := SlotLetter(data[i]);
      if letter.Some? {
        result := result + [(letter.value, i)];
      }
    }
  }

  // ---------------------------------------------------------------------------------------------
  // What every reachable entry satisfies
  // ---------------------------------------------------------------------------------------------

  function ModuleUid(letter: string): string { "module:" + letter }

  function MoodUid(mood: nat): string { "mood:" + Str(mood) }

  /** One subentry by itself, apart from who claims which output: its unique id names its letter or
      number, and its output keys are good. */
  predicate SubOk(x: Subentry) {
    match x
    case ModuleSub(_, uid, letter, _, outputs) => UpperLetter(letter) && uid == ModuleUid(letter) && KeysOk(outputs)
    case MoodSub(_, uid, mood) => 0 <= mood <= 99 && uid == MoodUid(mood)
  }

  /** No two subentries share an id or a unique id. */
  predicate SubsOk(s: Subs) {
    s.Sub? ==>
      && SubOk(s.first) && s.first.uniqueId !in UniqueIds(s.rest) && s.first.id !in Ids(s.rest)
      && SubsOk(s.rest)
  }

  predicate OutputsOk(x: Subentry) {
    x.ModuleSub? ==> WellFormed(x.outputs)
  }

  /** In every module the outputs are well formed: the allocator's invariant. */
  predicate AllOutputsOk(s: Subs) {
    s.Sub? ==> OutputsOk(s.first) && AllOutputsOk(s.rest)
  }

  /** In such an entry the letters of the modules and the numbers of the moods are pairwise distinct. */
  predicate PairwiseDistinct(s: Subs) {
    s.Sub? ==>
      && (s.first.ModuleSub? ==> UpperLetter(s.first.letter) && s.first.letter !in Letters(s.rest, None))
      && (s.first.MoodSub? ==> 0 <= s.first.mood <= 99 && s.first.mood !in Moods(s.rest))
      && PairwiseDistinct(s.rest)
  }

  lemma {:induction false} LettersAreUids(s: Subs, letter: string)
    requires SubsOk(s)
    ensures letter in Letters(s, None) <==> ModuleUid(letter) in UniqueIds(s)
  {
    if s.Sub? {
      LettersAreUids(s.rest, letter);
      if s.first.MoodSub? {
        assert ModuleUid(letter)[2] == 'd' && s.first.uniqueId[2] == 'o';
      } else {
        assert ModuleUid(letter)[7..] == letter && s.first.uniqueId[7..] == s.first.letter;
      }
    }
  }

  lemma {:induction false} MoodsAreUids(s: Subs, mood: nat)
    requires SubsOk(s)
    ensures mood as int in Moods(s) <==> MoodUid(mood) in UniqueIds(s)
  {
    if s.Sub? {
      MoodsAreUids(s.rest, mood);
      if s.first.ModuleSub? {
        assert MoodUid(mood)[2] == 'o' && s.first.uniqueId[2] == 'd';
      } else {
        assert MoodUid(mood)[5..] == Str(mood) && s.first.uniqueId[5..] == Str(s.first.mood);
        IntOfStr(mood);
        IntOfStr(s.first.mood);
      }
    }
  }

  lemma {:induction false} OkMeansDistinct(s: Subs)
    requires SubsOk(s)
    ensures PairwiseDistinct(s)
  {
    if s.Sub? {
      OkMeansDistinct(s.rest);
      if s.first.ModuleSub? {
        LettersAreUids(s.rest, s.first.letter);
      } else {
        MoodsAreUids(s.rest, s.first.mood);
      }
    }
  }

  lemma {:induction false} AppendOk(s: Subs, x: Subentry)
    requires SubsOk(s)
    ensures SubsOk(Append(s, x)) <==> SubOk(x) && x.uniqueId !in UniqueIds(s) && x.id !in Ids(s)
    ensures UniqueIds(Append(s, x)) == UniqueIds(s) + {x.uniqueId} && Ids(Append(s, x)) == Ids(s) + {x.id}
  {
    if s.Sub? {
      AppendOk(s.rest, x);
    }
  }

  lemma {:induction false} AppendOutputsOk(s: Subs, x: Subentry)
    ensures AllOutputsOk(Append(s, x)) <==> AllOutputsOk(s) && OutputsOk(x)
  {
    if s.Sub? {
      AppendOutputsOk(s.rest, x);
    }
  }

  lemma {:induction false} ReplaceOutputsOk(s: Subs, id: string, x: Subentry)
    requires Find(s, id).Some? && AllOutputsOk(s)
    ensures OutputsOk(Find(s, id).value)
    ensures AllOutputsOk(Replace(s, id, x)) <==> OutputsOk(x)
  {
    if s.first.id != id {
      ReplaceOutputsOk(s.rest, id, x);
    }
  }

  /** Updating a subentry in place; the registry refuses a unique id that another one has. */
  lemma {:induction false} ReplaceOk(s: Subs, id: string, x: Subentry)
    requires SubsOk(s) && Find(s, id).Some? && x.id == id && SubOk(x)
    requires x.uniqueId == Find(s, id).value.uniqueId || x.uniqueId !in UniqueIds(s)
    ensures SubsOk(Replace(s, id, x)) && Ids(Replace(s, id, x)) == Ids(s)
    ensures UniqueIds(Replace(s, id, x)) <= UniqueIds(s) + {x.uniqueId}
    ensures x.uniqueId == Find(s, id).value.uniqueId ==> UniqueIds(Replace(s, id, x)) == UniqueIds(s)
  {
    if s.first.id != id {
      FoundUid(s.rest, id);
      ReplaceOk(s.rest, id, x);
    }
  }

  lemma {:induction false} FoundUid(s: Subs, id: string)
    requires Find(s, id).Some?
    ensures Find(s, id).value.uniqueId in UniqueIds(s) && Find(s, id).value.id == id
    ensures SubsOk(s) ==> SubOk(Find(s, id).value)
  {
    if s.first.id != id {
      FoundUid(s.rest, id);
    }
  }

  lemma {:induction false} LettersExcept(s: Subs, id: string, letter: string)
    requires SubsOk(s) && Find(s, id).Some? && Find(s, id).value.ModuleSub?
    ensures letter in Letters(s, Some(id)) <==> letter in Letters(s, None) && letter != Find(s, id).value.letter
  {
    if s.first.id == id {
      LettersAreUids(s.rest, letter);
      NoSuchId(s.rest, id);
    } else {
      LettersExcept(s.rest, id, letter);
      FoundUid(s.rest, id);
    }
  }

  lemma {:induction false} NoSuchId(s: Subs, id: string)
    requires id !in Ids(s)
    ensures Letters(s, Some(id)) == Letters(s, None)
  {
    if s.Sub? {
      NoSuchId(s.rest, id);
    }
  }

  // ---------------------------------------------------------------------------------------------
  // Imported outputs
  // ---------------------------------------------------------------------------------------------

  predicate AllLights(d: Outputs) {
    d.Item? ==> d.value.LightCfg? && AllLights(d.rest)
  }

  lemma {:induction false} LightsClaimTheirKeys(d: Outputs, o: int)
    requires WellFormed(d) && AllLights(d) && o in Occupied(d)
    ensures 0 <= o && Str(o) in Keys(d)
  {
    if o !in Claims(d.key, d.value) {
      LightsClaimTheirKeys(d.rest, o);
    }
  }

  lemma {:induction false} PutLight(d: Outputs, o: nat, name: string)
    requires WellFormed(d) && AllLights(d) && InRange(o)
    ensures WellFormed(Put(d, Str(o), LightCfg(name))) && AllLights(Put(d, Str(o), LightCfg(name)))
  {
    IntOfStr(o);
    PutWellFormed(d, Str(o), LightCfg(name));
    GetKeys(d, Str(o));
    if o as int in Occupied(d) {
      LightsClaimTheirKeys(d, o);
      ClaimsOfEntry(d, Str(o));
    }
    PutAllLights(d, Str(o), name);
  }

  lemma {:induction false} PutAllLights(d: Outputs, key: string, name: string)
    requires AllLights(d)
    ensures AllLights(Put(d, key, LightCfg(name)))
  {
    if d.Item? {
      PutAllLights(d.rest, key, name);
    }
  }

  /** The lights that the first `n` downloaded (index, name) pairs name. */
  function OutputsFrom(names: seq<(nat, string)>, n: nat): Outputs
    requires n <= |names|
  {
    if n == 0 then Nothing
    else Put(OutputsFrom(names, n - 1), Str(names[n - 1].0 + 1), LightCfg(names[n - 1].1))
  }

  lemma {:induction false} OutputsFromOk(names: seq<(nat, string)>, n: nat)
    requires n <= |names| && forall i :: 0 <= i < |names| ==> names[i].0 < OUTPUTS_PER_MODULE
    ensures WellFormed(OutputsFrom(names, n)) && AllLights(OutputsFrom(names, n))
  {
    if n > 0 {
      OutputsFromOk(names, n - 1);
      PutLight(OutputsFrom(names, n - 1), names[n - 1].0 + 1, names[n - 1].1);
    }
  }

  /** The last name downloaded for an index, searched from the end. */
  function LastName(names: seq<(nat, string)>, n: nat, index: nat): Option<string>
    requires n <= |names|
  {
    if n == 0 then None
    else if names[n - 1].0 == index then Some(names[n - 1].1)
    else LastName(names, n - 1, index)
  }

  /** The name of index i lands on output i + 1, as a light, and nothing else is stored. */
  lemma {:induction false} NameLandsOnOutput(names: seq<(nat, string)>, n: nat, index: nat)
    requires n <= |names|
    ensures var last := LastName(names, n, index);
            Get(OutputsFrom(names, n), Str(index + 1)) == if last.Some? then Some(LightCfg(last.value)) else None
  {
    if n > 0 {
      NameLandsOnOutput(names, n - 1, index);
      PutGet(OutputsFrom(names, n - 1), Str(names[n - 1].0 + 1), LightCfg(names[n - 1].1), Str(index + 1));
      IntOfStr(index + 1);
      IntOfStr(names[n - 1].0 + 1);
    }
  }

  type Names = map<string, seq<(nat, string)>>

  /** The subentries once the first `n` downloaded modules have gone through the import. */
  function Imported(s: Subs, downloaded: seq<(string, nat)>, existing: set<string>, names: Names, newIds: seq<string>, n: nat): Subs
    requires n <= |downloaded| == |newIds|
    requires forall i :: 0 <= i < |downloaded| ==> downloaded[i].0 in names
  {
    if n == 0 then s
    else
      var before := Imported(s, downloaded, existing, names, newIds, n - 1);
      var letter := downloaded[n - 1].0;
      if letter in existing then before
      else Append(before, ModuleSub(newIds[n - 1], ModuleUid(letter), letter, false, OutputsFrom(names[letter], |names[letter]|)))
  }

  /** The same for moods: (number, whether the name is usable). */
  function ImportedMoods(s: Subs, names: seq<(nat, bool)>, existing: set<int>, newIds: seq<string>, n: nat): Subs
    requires n <= |names| == |newIds|
  {
    if n == 0 then s
    else
      var before := ImportedMoods(s, names, existing, newIds, n - 1);
      if names[n - 1].0 as int in existing || !names[n - 1].1 then before
      else Append(before, MoodSub(newIds[n - 1], MoodUid(names[n - 1].0), names[n - 1].0))
  }

  /** An import adds exactly one plain module per new letter of the download, with its names, and
      keeps what was there. */
  lemma {:induction false} ImportedExactly(
      s: Subs, downloaded: seq<(string, nat)>, existing: set<string>, names: Names, newIds: seq<string>, n: nat, x: Subentry)
    requires n <= |downloaded| == |newIds|
    requires forall i :: 0 <= i < |downloaded| ==> downloaded[i].0 in names
    ensures Contains(Imported(s, downloaded, existing, names, newIds, n), x)
            <==> || Contains(s, x)
                 || exists i :: 0 <= i < n && downloaded[i].0 !in existing
                      && x == ModuleSub(newIds[i], "module:" + downloaded[i].0, downloaded[i].0, false,
                                        OutputsFrom(names[downloaded[i].0], |names[downloaded[i].0]|))
  {
    if n > 0 {
      ImportedExactly(s, downloaded, existing, names, newIds, n - 1, x);
      var letter := downloaded[n - 1].0;
      AppendContains(Imported(s, downloaded, existing, names, newIds, n - 1),
                     ModuleSub(newIds[n - 1], ModuleUid(letter), letter, false, OutputsFrom(names[letter], |names[letter]|)), x);
    }
  }

  lemma {:induction false} ImportedMoodsExactly(
      s: Subs, names: seq<(nat, bool)>, existing: set<int>, newIds: seq<string>, n: nat, x: Subentry)
    requires n <= |names| == |newIds|
    ensures Contains(ImportedMoods(s, names, existing, newIds, n), x)
            <==> || Contains(s, x)
                 || exists i :: 0 <= i < n && names[i].0 as int !in existing && names[i].1
                      && x == MoodSub(newIds[i], "mood:" + Str(names[i].0), names[i].0)
  {
    if n > 0 {
      ImportedMoodsExactly(s, names, existing, newIds, n - 1, x);
      AppendContains(ImportedMoods(s, names, existing, newIds, n - 1),
                     MoodSub(newIds[n - 1], MoodUid(names[n - 1].0), names[n - 1].0), x);
    }
  }

  // ---------------------------------------------------------------------------------------------
  // The flows
  // ---------------------------------------------------------------------------------------------

  datatype EntryResult = Created | Changed | FormError(code: string) | Aborted(reason: string)

  class Entry {
    var subs: Subs

    constructor ()
      ensures subs == NoSubs && Valid()
    {
      subs := NoSubs;
    }

    /** What every flow keeps, in whatever order and with whatever stale form it is completed. */
    ghost predicate Valid()
      reads this
    {
      SubsOk(subs)
    }

    /** What every flow keeps but an edit form that was left open too long. */
    ghost predicate Disjoint()
      reads this
    {
      AllOutputsOk(subs)
    }

    /** Home Assistant's `async_add_subentry`: a unique id that is taken aborts the flow. */
    method AddSubentry(x: Subentry) returns (added: bool)
      requires Valid() && SubOk(x) && x.id !in Ids(subs)
      modifies this
      ensures Valid() && (added <==> x.uniqueId !in old(UniqueIds(subs)))
      ensures OutputsOk(x) && old(Disjoint()) ==> Disjoint()
      ensures subs == if added then Append(old(subs), x) else old(subs)
    {
      AppendOk(subs, x);
      AppendOutputsOk(subs, x);
      added := x.uniqueId !in UniqueIds(subs);
      if added {
        subs := Append(subs, x);
      }
    }

    method AddModule(raw: string, dimmable: bool, newId: string) returns (r: EntryResult)
      requires Valid() && newId !in Ids(subs)
      modifies this
      ensures Valid() && (old(Disjoint()) ==> Disjoint())
      ensures var letter := Normalized(raw);
              && r == (if !ValidModule(letter) then FormError("invalid_module")
                       else if letter in Letters(old(subs), None) then FormError("module_already_exists")
                       else Created)
              && subs == if r.Created? then Append(old(subs), ModuleSub(newId, ModuleUid(letter), letter, dimmable, Nothing))
                         else old(subs)
    {
      var letter := Normalized(raw);
      NormalizedIsUpper(raw);
      if !ValidModule(letter) {
        return FormError("invalid_module");
      }
      if letter in Letters(subs, None) {
        return FormError("module_already_exists");
      }
      LettersAreUids(subs, letter);
      var _ := AddSubentry(ModuleSub(newId, ModuleUid(letter), letter, dimmable, Nothing));
      r := Created;
    }

    method EditModule(id: string, raw: string, dimmable: bool) returns (r: EntryResult)
      requires Valid() && Find(subs, id).Some? && Find(subs, id).value.ModuleSub?
      modifies this
      ensures Valid() && (old(Disjoint()) ==> Disjoint())
      ensures var letter, was := Normalized(raw), Find(old(subs), id).value;
              && r == (if !ValidModule(letter) then FormError("invalid_module")
                       else if letter in Letters(old(subs), Some(id)) then FormError("module_already_exists")
                       else Changed)
              && subs == if r.Changed? then Replace(old(subs), id, ModuleSub(id, ModuleUid(letter), letter, dimmable, was.outputs))
                         else old(subs)
    {
      var letter := Normalized(raw);
      NormalizedIsUpper(raw);
      if !ValidModule(letter) {
        return FormError("invalid_module");
      }
      if letter in Letters(subs, Some(id)) {
        return FormError("module_already_exists");
      }
      var was := Find(subs, id).value;
      FoundUid(subs, id);
      LettersExcept(subs, id, letter);
      LettersAreUids(subs, letter);
      var now := ModuleSub(id, ModuleUid(letter), letter, dimmable, was.outputs);
      ReplaceOk(subs, id, now);
      if AllOutputsOk(subs) {
        ReplaceOutputsOk(subs, id, now);
      }
      subs := Replace(subs, id, now);
      r := Changed;
    }

    /** A completed output form of the module `id`. An edit form was opened for a key that was
        configured then. Claims stay disjoint exactly if the form is refused, the key is still there,
        or its number is free. */
    method EditOutputs(id: string, e: Edit) returns (r: FlowResult)
      requires Valid() && Find(subs, id).Some? && Find(subs, id).value.ModuleSub?
      requires OnceKey(e)
      modifies this
      ensures Valid()
      ensures var was := Find(old(subs), id).value;
              && r == Refusal(was.outputs, e).GetOr(Updated)
              && subs == Replace(old(subs), id, was.(outputs := After(was.outputs, e)))
              && (old(Disjoint()) ==> (Disjoint() <==> SafeEdit(was.outputs, e)))
    {
      var was := Find(subs, id).value;
      FoundUid(subs, id);
      r := Refusal(was.outputs, e).GetOr(Updated);
      EditKeepsKeys(was.outputs, e);
      var now := was.(outputs := After(was.outputs, e));
      ReplaceOk(subs, id, now);
      if AllOutputsOk(subs) {
        ReplaceOutputsOk(subs, id, now);
        EditWellFormedIff(was.outputs, e);
      }
      subs := Replace(subs, id, now);
    }

    method AddMood(mood: int, newId: string) returns (r: EntryResult)
      requires Valid() && newId !in Ids(subs)
      modifies this
      ensures Valid() && (old(Disjoint()) ==> Disjoint())
      ensures r == (if !(0 <= mood <= 99) then FormError("mood_number_out_of_range")
                    else if mood in Moods(old(subs)) then FormError("mood_already_exists")
                    else Created)
      ensures r.Created? ==> 0 <= mood && subs == Append(old(subs), MoodSub(newId, MoodUid(mood), mood))
      ensures !r.Created? ==> subs == old(subs)
    {
      if !(0 <= mood <= 99) {
        return FormError("mood_number_out_of_range");
      }
      if mood in Moods(subs) {
        return FormError("mood_already_exists");
      }
      MoodsAreUids(subs, mood);
      var _ := AddSubentry(MoodSub(newId, MoodUid(mood), mood));
      r := Created;
    }

    /** The end of a module import, after the names have been downloaded. `existing` are the letters
        seen before those awaits: other flows may have added modules since, and the download may name
        a letter twice. The first refused subentry aborts the import; what was added stays. */
    method ImportModules(downloaded: seq<(string, nat)>, existing: set<string>, names: Names, newIds: seq<string>)
      returns (r: EntryResult)
      requires Valid() && |newIds| == |downloaded|
      requires forall i, j :: 0 <= i < j < |newIds| ==> newIds[i] != newIds[j]
      requires forall i :: 0 <= i < |newIds| ==> newIds[i] !in Ids(subs)
      requires forall i :: 0 <= i < |downloaded| ==> UpperLetter(downloaded[i].0) && downloaded[i].0 in names
      requires forall l, i :: l in names && 0 <= i < |names[l]| ==> names[l][i].0 < OUTPUTS_PER_MODULE
      modifies this
      ensures Valid() && (old(Disjoint()) ==> Disjoint())
      ensures r == Aborted("no_new_modules") <==> forall i :: 0 <= i < |downloaded| ==> downloaded[i].0 in existing
      ensures r in {Aborted("no_new_modules"), Aborted("import_successful")} ==>
                subs == Imported(old(subs), downloaded, existing, names, newIds, |downloaded|)
      ensures r !in {Aborted("no_new_modules"), Aborted("import_successful")} ==>
                exists n :: 0 <= n < |downloaded|
                  && subs == Imported(old(subs), downloaded, existing, names, newIds, n)
                  && downloaded[n].0 !in existing && ModuleUid(downloaded[n].0) in UniqueIds(subs)
    {
      var none := forall i :: 0 <= i < |downloaded| ==> downloaded[i].0 in existing;
      for i := 0 to |downloaded|
        invariant Valid() && (old(Disjoint()) ==> Disjoint())
        invariant subs == Imported(old(subs), downloaded, existing, names, newIds, i)
        invariant forall j :: i <= j < |newIds| ==> newIds[j] !in Ids(subs)
      {
        var letter := downloaded[i].0;
        if letter !in existing {
          OutputsFromOk(names[letter], |names[letter]|);
          WellFormedOccupied(OutputsFrom(names[letter], |names[letter]|));
          var outputs := ImportedOutputs(names[letter]);
          var x := ModuleSub(newIds[i], ModuleUid(letter), letter, false, outputs);
          AppendOk(subs, x);
          var added := AddSubentry(x);
          if !added {
            return Aborted("already_configured");
          }
        }
      }
      r := Aborted(if none then "no_new_modules" else "import_successful");
    }

    /** The end of a mood import: `names` are downloaded (number, usable) pairs, where `usable` is
        false for an empty or "-" name; `existing` may be out of date. */
    method ImportMoods(names: seq<(nat, bool)>, existing: set<int>, newIds: seq<string>)
      returns (r: EntryResult)
      requires Valid() && |newIds| == |names|
      requires forall i, j :: 0 <= i < j < |newIds| ==> newIds[i] != newIds[j]
      requires forall i :: 0 <= i < |newIds| ==> newIds[i] !in Ids(subs)
      requires forall i :: 0 <= i < |names| ==> names[i].0 <= 99
      modifies this
      ensures Valid() && (old(Disjoint()) ==> Disjoint())
      ensures r == Aborted("no_new_moods") <==> forall i :: 0 <= i < |names| ==> names[i].0 as int in existing || !names[i].1
      ensures r in {Aborted("no_new_moods"), Aborted("import_successful")} ==>
                subs == ImportedMoods(old(subs), names, existing, newIds, |names|)
      ensures r !in {Aborted("no_new_moods"), Aborted("import_successful")} ==>
                exists n :: 0 <= n < |names|
                  && subs == ImportedMoods(old(subs), names, existing, newIds, n)
                  && names[n].0 as int !in existing && names[n].1 && MoodUid(names[n].0) in UniqueIds(subs)
    {
      var none := forall i :: 0 <= i < |names| ==> names[i].0 as int in existing || !names[i].1;
      for i := 0 to |names|
        invariant Valid() && (old(Disjoint()) ==> Disjoint())
        invariant subs == ImportedMoods(old(subs), names, existing, newIds, i)
        invariant forall j :: i <= j < |newIds| ==> newIds[j] !in Ids(subs)
      {
        if names[i].0 as int !in existing && names[i].1 {
          var x := MoodSub(newIds[i], MoodUid(names[i].0), names[i].0);
          AppendOk(subs, x);
          var added := AddSubentry(x);
          if !added {
            return Aborted("already_configured");
          }
        }
      }
      r := Aborted(if none then "no_new_moods" else "import_successful");
    }
  }

  /** The loop of the module import over one module's names. */
  method ImportedOutputs(names: seq<(nat, string)>) returns (outputs: Outputs)
    ensures outputs == OutputsFrom(names, |names|)
  {
    outputs := Nothing;
    for i := 0 to |names|
      invariant outputs == OutputsFrom(names, i)
    {
      outputs := Put(outputs, Str(names[i].0 + 1), LightCfg(names[i].1));
    }
  }
}
