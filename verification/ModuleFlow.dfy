/** The outputs of one module and the steps that edit them. */
module ModuleFlow {
  import opened Wrappers
  import opened Dict
  import opened Protocol

  datatype OutputCfg =
    | LightCfg(name: string)
    | SwitchCfg(name: string)
    | ShutterCfg(downOutput: int, name: string)

  type Outputs = Dict<OutputCfg>

  /** What is stored under output `n`. */
  function CfgAt(d: Outputs, n: nat): Option<OutputCfg> {
    Get(d, Str(n))
  }

  /** Every key is a number: `int(key)` does not raise. */
  predicate Numeric(d: Outputs) {
    d.Item? ==> Int(d.key).Some? && Numeric(d.rest)
  }

  function Claims(key: string, cfg: OutputCfg): set<int> {
    (if Int(key).Some? then {Int(key).value as int} else {})
    + if cfg.ShutterCfg? then {cfg.downOutput} else {}
  }

  function Occupied(d: Outputs): set<int> {
    if d.Nothing? then {} else Claims(d.key, d.value) + Occupied(d.rest)
  }

  /** `_occupied_outputs_in_module` */
  method OccupiedOutputsInModule(outputs: Outputs) returns (occupied: set<int>)
    requires Numeric(outputs)
    ensures occupied == Occupied(outputs)
  {
    occupied := {};
    var items := outputs;
    while items.Item?
      invariant Numeric(items)
      invariant occupied + Occupied(items) == Occupied(outputs)
      decreases items
    {
      occupied := occupied + {Int(items.key).value as int};
      if items.value.ShutterCfg? {
        occupied := occupied + {items.value.downOutput};
      }
      items := items.rest;
    }
  }

  predicate InRange(output: int) {
    1 <= output <= OUTPUTS_PER_MODULE
  }

  /** A key is `str` of an output. */
  predicate KeyOk(key: string) {
    Int(key).Some? && InRange(Int(key).value) && Str(Int(key).value) == key
  }

  /** The keys of a stored map: good, and each there once. */
  predicate KeysOk(d: Outputs) {
    d.Item? ==> KeyOk(d.key) && d.key !in Keys(d.rest) && KeysOk(d.rest)
  }

  lemma {:induction false} KeysAreNumeric(d: Outputs)
    requires KeysOk(d)
    ensures Numeric(d)
  {
    if d.Item? {
      KeysAreNumeric(d.rest);
    }
  }

  /** One entry by itself: a good key, and a shutter has two different outputs. */
  predicate EntryOk(key: string, cfg: OutputCfg) {
    && KeyOk(key)
    && (cfg.ShutterCfg? ==> InRange(cfg.downOutput) && cfg.downOutput != Int(key).value)
  }

  /** Every entry is well formed and no physical output is claimed twice. */
  predicate WellFormed(d: Outputs) {
    d.Item? ==>
      && EntryOk(d.key, d.value)
      && Claims(d.key, d.value) !! Occupied(d.rest)
      && WellFormed(d.rest)
  }

  lemma {:induction false} WellFormedOccupied(d: Outputs)
    requires WellFormed(d)
    ensures KeysOk(d) && Numeric(d)
    ensures forall o :: o in Occupied(d) ==> InRange(o)
  {
    if d.Item? {
      WellFormedOccupied(d.rest);
      SameKeySameClaim(d.rest, d.key);
    }
  }

  /** What well-formedness means for any two entries. */
  lemma {:induction false} ClaimsOfEntry(d: Outputs, key: string)
    requires WellFormed(d) && key in Keys(d)
    ensures Get(d, key).Some? && EntryOk(key, Get(d, key).value)
    ensures Claims(key, Get(d, key).value) <= Occupied(d)
  {
    if d.key != key {
      ClaimsOfEntry(d.rest, key);
    }
  }

  lemma {:induction false} EntriesDisjoint(d: Outputs, key: string, other: string)
    requires WellFormed(d) && key in Keys(d) && other in Keys(d) && key != other
    ensures Get(d, key).Some? && Get(d, other).Some?
    ensures Claims(key, Get(d, key).value) !! Claims(other, Get(d, other).value)
  {
    if d.key == key {
      ClaimsOfEntry(d.rest, other);
    } else if d.key == other {
      ClaimsOfEntry(d.rest, key);
    } else {
      EntriesDisjoint(d.rest, key, other);
    }
  }

  /** What the entry under `key` claims now. */
  function OwnClaims(d: Outputs, key: string): set<int> {
    var cfg := Get(d, key);
    if cfg.Some? then Claims(key, cfg.value) else {}
  }

  lemma {:induction false} OwnKeyOccupied(d: Outputs, key: string)
    requires WellFormed(d) && Get(d, key).Some?
    ensures OwnClaims(d, key) <= Occupied(d)
  {
    if d.key != key {
      OwnKeyOccupied(d.rest, key);
    }
  }

  /** Storing an entry keeps the map well formed exactly when the entry is, and claims nothing that
      another entry claims: subtracting the key's own claims is exact. */
  lemma {:induction false} PutWellFormed(d: Outputs, key: string, cfg: OutputCfg)
    requires WellFormed(d)
    ensures WellFormed(Put(d, key, cfg))
            <==> EntryOk(key, cfg) && Claims(key, cfg) !! Occupied(d) - OwnClaims(d, key)
    ensures Occupied(Put(d, key, cfg)) == Occupied(d) - OwnClaims(d, key) + Claims(key, cfg)
  {
    if d.Item? {
      PutWellFormed(d.rest, key, cfg);
      if d.key != key && Get(d.rest, key).Some? {
        OwnKeyOccupied(d.rest, key);
      }
    }
  }

  lemma {:induction false} PopWellFormed(d: Outputs, key: string)
    requires WellFormed(d)
    ensures WellFormed(Pop(d, key)) && Occupied(Pop(d, key)) == Occupied(d) - OwnClaims(d, key)
    ensures Keys(Pop(d, key)) == Keys(d) - {key}
  {
    if d.Item? {
      PopWellFormed(d.rest, key);
      if d.key == key {
        SameKeySameClaim(d.rest, key);
      } else if Get(d.rest, key).Some? {
        OwnKeyOccupied(d.rest, key);
      }
    }
  }

  lemma {:induction false} SameKeySameClaim(d: Outputs, key: string)
    requires Int(key).Some? && Int(key).value as int !in Occupied(d)
    ensures key !in Keys(d)
  {
    if d.Item? {
      SameKeySameClaim(d.rest, key);
    }
  }

  // ---------------------------------------------------------------------------------------------
  // The steps
  // ---------------------------------------------------------------------------------------------

  datatype FlowResult = Updated | Error(field: string, code: string) | Abort(reason: string) | ShowForm(step: string)

  datatype NewType = AsLight | AsSwitch

  /** One completed form. Retype and Redown act on the key a flow chose earlier. */
  datatype Edit =
    | AddLight(output: int, name: string)
    | AddSwitch(output: int, name: string)
    | AddShutter(upOutput: int, downOutput: int, name: string)
    | Remove(key: string)
    | Retype(key: string, newType: NewType)
    | Redown(key: string, down: int)

  function SingleCfg(t: NewType, name: string): OutputCfg {
    if t.AsLight? then LightCfg(name) else SwitchCfg(name)
  }

  function NameOf(d: Outputs, key: string): string {
    var cfg := Get(d, key);
    if cfg.Some? then cfg.value.name else ""
  }

  /** The form error of an edit, if it is refused. */
  function Refusal(d: Outputs, e: Edit): Option<FlowResult> {
    match e
    case AddLight(output, _) => SingleRefusal(d, output)
    case AddSwitch(output, _) => SingleRefusal(d, output)
    case AddShutter(up, down, _) =>
      if !InRange(up) then Some(Error("up_output", "invalid_output"))
      else if !InRange(down) then Some(Error("down_output", "invalid_output"))
      else if up == down then Some(Error("base", "same_output"))
      else if up in Occupied(d) then Some(Error("up_output", "duplicate_output"))
      else if down in Occupied(d) then Some(Error("down_output", "duplicate_output"))
      else None
    case Remove(key) =>
      if d.Nothing? then Some(Abort("no_outputs_to_remove"))
      else if key !in Keys(d) then Some(Error("output", "invalid_output"))
      else None
    case Retype(_, _) => None
    case Redown(key, down) =>
      var up := Int(key).GetOr(0) as int;
      if !InRange(down) then Some(Error("down_output", "invalid_output"))
      else if down == up then Some(Error("base", "same_output"))
      else if down in Occupied(d) - ({up} + OwnClaims(d, key)) then Some(Error("down_output", "duplicate_output"))
      else None
  }

  function SingleRefusal(d: Outputs, output: int): Option<FlowResult> {
    if !InRange(output) then Some(Error("output", "invalid_output"))
    else if output in Occupied(d) then Some(Error("output", "duplicate_output"))
    else None
  }

  /** The outputs an accepted edit stores. */
  function Apply(d: Outputs, e: Edit): Outputs {
    match e
    case AddLight(output, name) => if output < 0 then d else Put(d, Str(output), LightCfg(name))
    case AddSwitch(output, name) => if output < 0 then d else Put(d, Str(output), SwitchCfg(name))
    case AddShutter(up, down, name) => if up < 0 then d else Put(d, Str(up), ShutterCfg(down, name))
    case Remove(key) => Pop(d, key)
    case Retype(key, t) => Put(d, key, SingleCfg(t, NameOf(d, key)))
    case Redown(key, down) => Put(d, key, ShutterCfg(down, NameOf(d, key)))
  }

  function After(d: Outputs, e: Edit): Outputs {
    if Refusal(d, e).Some? then d else Apply(d, e)
  }

  /** The stored data of a module subentry. */
  class ModuleSubentry {
    var outputs: Outputs

    constructor (outputs: Outputs)
      ensures this.outputs == outputs
    {
      this.outputs := outputs;
    }
  }

  /** One reconfigure flow. Several flows can be open on the same subentry, so the key one of them
      has chosen may be gone when its form comes back. */
  class Handler {
    const subentry: ModuleSubentry
    var editOutputKey: Option<string>

    constructor (subentry: ModuleSubentry)
      ensures this.subentry == subentry && editOutputKey == None
    {
      this.subentry := subentry;
      editOutputKey := None;
    }

    method StepAddLight(output: int, name: string) returns (r: FlowResult)
      requires Numeric(subentry.outputs)
      modifies subentry
      ensures r == Refusal(old(subentry.outputs), AddLight(output, name)).GetOr(Updated)
      ensures subentry.outputs == After(old(subentry.outputs), AddLight(output, name))
    {
      if output < 1 || output > OUTPUTS_PER_MODULE {
        return Error("output", "invalid_output");
      }
      var occupied := OccupiedOutputsInModule(subentry.outputs);
      if output in occupied {
        return Error("output", "duplicate_output");
      }
      subentry.outputs := Put(subentry.outputs, Str(output), LightCfg(name));
      r := Updated;
    }

    method StepAddSwitch(output: int, name: string) returns (r: FlowResult)
      requires Numeric(subentry.outputs)
      modifies subentry
      ensures r == Refusal(old(subentry.outputs), AddSwitch(output, name)).GetOr(Updated)
      ensures subentry.outputs == After(old(subentry.outputs), AddSwitch(output, name))
    {
      if output < 1 || output > OUTPUTS_PER_MODULE {
        return Error("output", "invalid_output");
      }
      var occupied := OccupiedOutputsInModule(subentry.outputs);
      if output in occupied {
        return Error("output", "duplicate_output");
      }
      subentry.outputs := Put(subentry.outputs, Str(output), SwitchCfg(name));
      r := Updated;
    }

    method StepAddShutter(upOutput: int, downOutput: int, name: string) returns (r: FlowResult)
      requires Numeric(subentry.outputs)
      modifies subentry
      ensures r == Refusal(old(subentry.outputs), AddShutter(upOutput, downOutput, name)).GetOr(Updated)
      ensures subentry.outputs == After(old(subentry.outputs), AddShutter(upOutput, downOutput, name))
    {
      if upOutput < 1 || upOutput > OUTPUTS_PER_MODULE {
        return Error("up_output", "invalid_output");
      }
      if downOutput < 1 || downOutput > OUTPUTS_PER_MODULE {
        return Error("down_output", "invalid_output");
      }
      if upOutput == downOutput {
        return Error("base", "same_output");
      }
      var occupied := OccupiedOutputsInModule(subentry.outputs);
      if upOutput in occupied {
        return Error("up_output", "duplicate_output");
      }
      if downOutput in occupied {
        return Error("down_output", "duplicate_output");
      }
      subentry.outputs := Put(subentry.outputs, Str(upOutput), ShutterCfg(downOutput, name));
      r := Updated;
    }

    method StepRemoveOutput(chosen: string) returns (r: FlowResult)
      modifies subentry
      ensures r == Refusal(old(subentry.outputs), Remove(chosen)).GetOr(Updated)
      ensures subentry.outputs == After(old(subentry.outputs), Remove(chosen))
    {
      if subentry.outputs.Nothing? {
        return Abort("no_outputs_to_remove");
      }
      if chosen !in Keys(subentry.outputs) {
        return Error("output", "invalid_output");
      }
      subentry.outputs := Pop(subentry.outputs, chosen);
      r := Updated;
    }

    /** Choosing an output that is there arms the edit; nothing is stored yet. */
    method StepEditOutput(chosen: string) returns (r: FlowResult)
      modifies this
      ensures r == if chosen in Keys(subentry.outputs) then ShowForm("edit_output_type") else Abort("no_outputs_to_edit")
      ensures editOutputKey == if r.ShowForm? then Some(chosen) else old(editOutputKey)
    {
      if subentry.outputs.Nothing? {
        return Abort("no_outputs_to_edit");
      }
      if chosen !in Keys(subentry.outputs) {
        return Abort("no_outputs_to_edit");
      }
      editOutputKey := Some(chosen);
      r := ShowForm("edit_output_type");
    }

    /** `newType` is None for the shutter choice, which only leads to the next form. */
    method StepEditOutputType(newType: Option<NewType>) returns (r: FlowResult)
      modifies subentry
      ensures editOutputKey.None? ==> r == Abort("no_outputs_to_edit")
      ensures editOutputKey.Some? ==> r == if newType.None? then ShowForm("edit_output_down") else Updated
      ensures subentry.outputs == if editOutputKey.Some? && newType.Some?
                                  then After(old(subentry.outputs), Retype(editOutputKey.value, newType.value))
                                  else old(subentry.outputs)
    {
      if editOutputKey.None? {
        return Abort("no_outputs_to_edit");
      }
      var key := editOutputKey.value;
      if newType.None? {
        return ShowForm("edit_output_down");
      }
      var current := Get(subentry.outputs, key);
      var name := if current.Some? then current.value.name else "";
      subentry.outputs := Put(subentry.outputs, key, if newType.value.AsLight? then LightCfg(name) else SwitchCfg(name));
      r := Updated;
    }

    method StepEditOutputDown(downOutput: int) returns (r: FlowResult)
      requires Numeric(subentry.outputs) && (editOutputKey.Some? ==> Int(editOutputKey.value).Some?)
      modifies subentry
      ensures editOutputKey.None? ==> r == Abort("no_outputs_to_edit") && subentry.outputs == old(subentry.outputs)
      ensures editOutputKey.Some? ==>
                var e := Redown(editOutputKey.value, downOutput);
                && r == Refusal(old(subentry.outputs), e).GetOr(Updated)
                && subentry.outputs == After(old(subentry.outputs), e)
    {
      if editOutputKey.None? {
        return Abort("no_outputs_to_edit");
      }
      var key := editOutputKey.value;
      var current := Get(subentry.outputs, key);
      var upOutput := Int(key).value;
      if downOutput < 1 || downOutput > OUTPUTS_PER_MODULE {
        return Error("down_output", "invalid_output");
      }
      if downOutput == upOutput {
        return Error("base", "same_output");
      }
      var ownClaims := {upOutput as int};
      if current.Some? && current.value.ShutterCfg? {
        ownClaims := ownClaims + {current.value.downOutput};
      }
      var occupied := OccupiedOutputsInModule(subentry.outputs);
      if downOutput in occupied - ownClaims {
        return Error("down_output", "duplicate_output");
      }
      var name := if current.Some? then current.value.name else "";
      subentry.outputs := Put(subentry.outputs, key, ShutterCfg(downOutput, name));
      r := Updated;
    }
  }

  // ---------------------------------------------------------------------------------------------
  // Disjointness over whole runs
  // ---------------------------------------------------------------------------------------------

  /** The key an edit form was opened for is still configured when the form is completed. */
  predicate StillThere(d: Outputs, e: Edit) {
    match e
    case Retype(key, _) => key in Keys(d)
    case Redown(key, _) => key in Keys(d)
    case _ => true
  }

  lemma StrIsKey(output: int)
    requires InRange(output)
    ensures Int(Str(output)) == Some(output)
  {
    IntOfStr(output);
  }

  lemma AddKeepsWellFormed(d: Outputs, output: int, cfg: OutputCfg)
    requires WellFormed(d) && InRange(output) && output !in Occupied(d)
    requires cfg.ShutterCfg? ==> InRange(cfg.downOutput) && cfg.downOutput != output && cfg.downOutput !in Occupied(d)
    ensures WellFormed(Put(d, Str(output), cfg))
  {
    StrIsKey(output);
    PutWellFormed(d, Str(output), cfg);
  }

  lemma ReplaceKeepsWellFormed(d: Outputs, key: string, cfg: OutputCfg)
    requires WellFormed(d) && key in Keys(d)
    requires cfg.ShutterCfg? ==>
               && InRange(cfg.downOutput) && cfg.downOutput != Int(key).GetOr(0)
               && cfg.downOutput !in Occupied(d) - ({Int(key).GetOr(0) as int} + OwnClaims(d, key))
    ensures WellFormed(Put(d, key, cfg))
  {
    ClaimsOfEntry(d, key);
    PutWellFormed(d, key, cfg);
  }

  lemma EditKeepsWellFormed(d: Outputs, e: Edit)
    requires WellFormed(d) && StillThere(d, e)
    ensures WellFormed(After(d, e))
  {
    if Refusal(d, e).None? {
      match e {
        case AddLight(output, name) => AddKeepsWellFormed(d, output, LightCfg(name));
        case AddSwitch(output, name) => AddKeepsWellFormed(d, output, SwitchCfg(name));
        case AddShutter(up, down, name) => AddKeepsWellFormed(d, up, ShutterCfg(down, name));
        case Remove(key) => PopWellFormed(d, key);
        case Retype(key, t) => ReplaceKeepsWellFormed(d, key, SingleCfg(t, NameOf(d, key)));
        case Redown(key, down) => ReplaceKeepsWellFormed(d, key, ShutterCfg(down, NameOf(d, key)));
      }
    }
  }

  function RunEdits(d: Outputs, edits: seq<Edit>): Outputs
    decreases |edits|
  {
    if edits == [] then d else RunEdits(After(d, edits[0]), edits[1..])
  }

  predicate AllStillThere(d: Outputs, edits: seq<Edit>)
    decreases |edits|
  {
    edits != [] ==> StillThere(d, edits[0]) && AllStillThere(After(d, edits[0]), edits[1..])
  }

  /** After any sequence of edits, by any number of flows, that never complete on a vanished key. */
  lemma {:induction false} RunsStayWellFormed(d: Outputs, edits: seq<Edit>)
    requires WellFormed(d) && AllStillThere(d, edits)
    ensures WellFormed(RunEdits(d, edits))
    decreases |edits|
  {
    if edits != [] {
      EditKeepsWellFormed(d, edits[0]);
      RunsStayWellFormed(After(d, edits[0]), edits[1..]);
    }
  }

  /** Changing the down output, or turning an output into a shutter, is accepted exactly when the
      updated map is well formed. */
  lemma RedownAcceptedIffWellFormed(d: Outputs, key: string, down: int)
    requires WellFormed(d) && key in Keys(d)
    ensures Refusal(d, Redown(key, down)).None? <==> WellFormed(Apply(d, Redown(key, down)))
  {
    ClaimsOfEntry(d, key);
    PutWellFormed(d, key, ShutterCfg(down, NameOf(d, key)));
  }

  /** Adding is accepted exactly when the output is no entry's key and the updated map is well formed. */
  lemma AddAcceptedIffWellFormed(d: Outputs, e: Edit)
    requires WellFormed(d) && (e.AddLight? || e.AddSwitch? || e.AddShutter?)
    ensures var o := if e.AddShutter? then e.upOutput else e.output;
            Refusal(d, e).None? <==> 0 <= o && Str(o) !in Keys(d) && WellFormed(Apply(d, e))
  {
    var o := if e.AddShutter? then e.upOutput else e.output;
    if 0 <= o {
      var cfg := if e.AddShutter? then ShutterCfg(e.downOutput, e.name)
                 else if e.AddLight? then LightCfg(e.name) else SwitchCfg(e.name);
      IntOfStr(o);
      PutWellFormed(d, Str(o), cfg);
      GetKeys(d, Str(o));
      if o !in Occupied(d) {
        SameKeySameClaim(d, Str(o));
      }
    }
  }

  /** The key of an edit form was configured when the form was opened. */
  predicate OnceKey(e: Edit) {
    e.Retype? || e.Redown? ==> KeyOk(e.key)
  }

  /** Exactly when completing an edit on a key that may have vanished is safe: the key is there, or
      its number is not claimed by another entry. */
  lemma StaleEditSafeIff(d: Outputs, e: Edit)
    requires WellFormed(d) && (e.Retype? || e.Redown?)
    requires OnceKey(e) && Refusal(d, e).None?
    ensures WellFormed(After(d, e)) <==> e.key in Keys(d) || Int(e.key).value as int !in Occupied(d)
  {
    var cfg := if e.Retype? then SingleCfg(e.newType, NameOf(d, e.key)) else ShutterCfg(e.down, NameOf(d, e.key));
    PutWellFormed(d, e.key, cfg);
    GetKeys(d, e.key);
    if e.key in Keys(d) {
      ClaimsOfEntry(d, e.key);
    }
  }

  /** The form is refused, it adds or removes, its key is still there, or the number of its key is free. */
  predicate SafeEdit(d: Outputs, e: Edit) {
    || Refusal(d, e).Some? || StillThere(d, e)
    || ((e.Retype? || e.Redown?) && Int(e.key).Some? && Int(e.key).value as int !in Occupied(d))
  }

  /** For every completed form, stale or not: the module stays well formed if and only if it is safe. */
  lemma EditWellFormedIff(d: Outputs, e: Edit)
    requires WellFormed(d) && OnceKey(e)
    ensures WellFormed(After(d, e)) <==> SafeEdit(d, e)
  {
    if StillThere(d, e) {
      EditKeepsWellFormed(d, e);
    } else if Refusal(d, e).None? {
      StaleEditSafeIff(d, e);
    }
  }

  lemma {:induction false} PutKeysOk(d: Outputs, key: string, cfg: OutputCfg)
    requires KeysOk(d) && KeyOk(key)
    ensures KeysOk(Put(d, key, cfg))
  {
    if d.Item? && d.key != key {
      PutKeysOk(d.rest, key, cfg);
      PutGet(d.rest, key, cfg, d.key);
    }
  }

  lemma {:induction false} PopKeysOk(d: Outputs, key: string)
    requires KeysOk(d)
    ensures KeysOk(Pop(d, key)) && Keys(Pop(d, key)) == Keys(d) - {key}
  {
    if d.Item? && d.key != key {
      PopKeysOk(d.rest, key);
    }
  }

  /** Keys stay good whatever form is completed, stale or not. */
  lemma EditKeepsKeys(d: Outputs, e: Edit)
    requires KeysOk(d) && OnceKey(e)
    ensures KeysOk(After(d, e))
  {
    if Refusal(d, e).None? {
      match e {
        case AddLight(output, name) => StrIsKey(output); PutKeysOk(d, Str(output), LightCfg(name));
        case AddSwitch(output, name) => StrIsKey(output); PutKeysOk(d, Str(output), SwitchCfg(name));
        case AddShutter(up, down, name) => StrIsKey(up); PutKeysOk(d, Str(up), ShutterCfg(down, name));
        case Remove(key) => PopKeysOk(d, key);
        case Retype(key, t) => PutKeysOk(d, key, SingleCfg(t, NameOf(d, key)));
        case Redown(key, down) => PutKeysOk(d, key, ShutterCfg(down, NameOf(d, key)));
      }
    }
  }

  /** An output is occupied exactly if it is some entry's number or some shutter's down output. */
  lemma {:induction false} OccupiedExactly(d: Outputs, o: int)
    requires KeysOk(d)
    ensures o in Occupied(d)
            <==> exists key :: key in Keys(d) && Get(d, key).Some?
                            && (Int(key) == Some(o) || (Get(d, key).value.ShutterCfg? && Get(d, key).value.downOutput == o))
  {
    if d.Item? {
      OccupiedExactly(d.rest, o);
      if o in Occupied(d) {
        if o in Claims(d.key, d.value) {
          assert d.key in Keys(d) && Get(d, d.key) == Some(d.value);
        } else {
          var key :| key in Keys(d.rest) && Get(d.rest, key).Some?
                     && (Int(key) == Some(o) || (Get(d.rest, key).value.ShutterCfg? && Get(d.rest, key).value.downOutput == o));
          assert key in Keys(d) && Get(d, key) == Get(d.rest, key);
        }
      }
    }
  }

  lemma {:induction false} PopGet<V>(d: Dict<V>, key: string, other: string)
    requires other != key
    ensures Get(Pop(d, key), other) == Get(d, other)
  {
    if d.Item? && d.key != key {
      PopGet(d.rest, key, other);
    }
  }

  /** What an accepted form stores: the type it names under the key it names, with the name given or
      the name that was there; every other key is as before. */
  lemma EditStores(d: Outputs, e: Edit, other: string)
    requires KeysOk(d) && Refusal(d, e).None?
    ensures var t := After(d, e);
            var name := if e.Retype? || e.Redown? then NameOf(d, e.key) else "";
            match e
            case AddLight(o, name) =>
              o >= 1 && Get(t, Str(o)) == Some(LightCfg(name)) && (other != Str(o) ==> Get(t, other) == Get(d, other))
            case AddSwitch(o, name) =>
              o >= 1 && Get(t, Str(o)) == Some(SwitchCfg(name)) && (other != Str(o) ==> Get(t, other) == Get(d, other))
            case AddShutter(up, down, name) =>
              up >= 1 && Get(t, Str(up)) == Some(ShutterCfg(down, name)) && (other != Str(up) ==> Get(t, other) == Get(d, other))
            case Remove(key) => Get(t, key) == None && (other != key ==> Get(t, other) == Get(d, other))
            case Retype(key, AsLight) =>
              Get(t, key) == Some(LightCfg(name)) && (other != key ==> Get(t, other) == Get(d, other))
            case Retype(key, AsSwitch) =>
              Get(t, key) == Some(SwitchCfg(name)) && (other != key ==> Get(t, other) == Get(d, other))
            case Redown(key, down) =>
              Get(t, key) == Some(ShutterCfg(down, name)) && (other != key ==> Get(t, other) == Get(d, other))
    ensures (e.Retype? || e.Redown?) && Get(d, e.key).Some? ==>
              var was, now := Get(d, e.key).value, Get(After(d, e), e.key);
              now.Some? && now.value.name == was.name
  {
    match e {
      case AddLight(o, name) => PutBoth(d, Str(o), LightCfg(name), other);
      case AddSwitch(o, name) => PutBoth(d, Str(o), SwitchCfg(name), other);
      case AddShutter(up, down, name) => PutBoth(d, Str(up), ShutterCfg(down, name), other);
      case Remove(key) =>
        PopKeysOk(d, key);
        GetKeys(Pop(d, key), key);
        if other != key {
          PopGet(d, key, other);
        }
      case Retype(key, t) => PutBoth(d, key, SingleCfg(t, NameOf(d, key)), other);
      case Redown(key, down) => PutBoth(d, key, ShutterCfg(down, NameOf(d, key)), other);
    }
  }

  lemma PutBoth(d: Outputs, key: string, cfg: OutputCfg, other: string)
    ensures Get(Put(d, key, cfg), key) == Some(cfg)
    ensures other != key ==> Get(Put(d, key, cfg), other) == Get(d, other)
  {
    PutGet(d, key, cfg, key);
    PutGet(d, key, cfg, other);
  }

  /** Which refusal a form gets, each by its own condition. */
  lemma RefusalMeans(d: Outputs, e: Edit)
    ensures e.AddLight? || e.AddSwitch? ==>
              && (Refusal(d, e) == Some(Error("output", "invalid_output")) <==> e.output < 1 || 12 < e.output)
              && (Refusal(d, e) == Some(Error("output", "duplicate_output")) <==> 1 <= e.output <= 12 && e.output in Occupied(d))
              && (Refusal(d, e).None? <==> 1 <= e.output <= 12 && e.output !in Occupied(d))
    ensures e.AddShutter? ==>
              var up, down := e.upOutput, e.downOutput;
              var inRange := 1 <= up <= 12 && 1 <= down <= 12;
              && (Refusal(d, e) == Some(Error("up_output", "invalid_output")) <==> up < 1 || 12 < up)
              && (Refusal(d, e) == Some(Error("down_output", "invalid_output")) <==> 1 <= up <= 12 && (down < 1 || 12 < down))
              && (Refusal(d, e) == Some(Error("base", "same_output")) <==> inRange && up == down)
              && (Refusal(d, e) == Some(Error("up_output", "duplicate_output")) <==> inRange && up != down && up in Occupied(d))
              && (Refusal(d, e) == Some(Error("down_output", "duplicate_output"))
                  <==> inRange && up != down && up !in Occupied(d) && down in Occupied(d))
              && (Refusal(d, e).None? <==> inRange && up != down && up !in Occupied(d) && down !in Occupied(d))
    ensures e.Remove? ==>
              && (Refusal(d, e) == Some(Abort("no_outputs_to_remove")) <==> Keys(d) == {})
              && (Refusal(d, e) == Some(Error("output", "invalid_output")) <==> Keys(d) != {} && e.key !in Keys(d))
              && (Refusal(d, e).None? <==> e.key in Keys(d))
    ensures e.Retype? ==> Refusal(d, e).None?
    ensures e.Redown? && Int(e.key).Some? ==>
              var up, inRange := Int(e.key).value as int, 1 <= e.down <= 12;
              && (Refusal(d, e) == Some(Error("down_output", "invalid_output")) <==> !inRange)
              && (Refusal(d, e) == Some(Error("base", "same_output")) <==> inRange && e.down == up)
              && (Refusal(d, e) == Some(Error("down_output", "duplicate_output"))
                  <==> && inRange && e.down != up && e.down in Occupied(d)
                       && !(Get(d, e.key).Some? && Get(d, e.key).value.ShutterCfg? && Get(d, e.key).value.downOutput == e.down))
  {
    if d.Item? {
      assert d.key in Keys(d);
    }
  }

  /** It can go wrong: one flow chooses light 1; another removes it and adds a shutter 2/1; the first
      flow then stores a switch on output 1, which the shutter drives. */
  lemma StaleEditBreaks()
    ensures var d := Item("2", ShutterCfg(1, ""), Nothing);
            && WellFormed(d)
            && RunEdits(Item("1", LightCfg(""), Nothing), [Remove("1"), AddShutter(2, 1, "")]) == d
            && !WellFormed(After(d, Retype("1", AsSwitch)))
  {
    StrIsKey(1);
    StrIsKey(2);
    assert Str(1) == "1" && Str(2) == "2";
    var edits := [Remove("1"), AddShutter(2, 1, "")];
    assert edits[1..] == [AddShutter(2, 1, "")] && edits[1..][1..] == [];
    var d := Item("2", ShutterCfg(1, ""), Nothing);
    assert Claims("2", ShutterCfg(1, "")) == {2, 1};
    var after := After(d, Retype("1", AsSwitch));
    assert after == Item("2", ShutterCfg(1, ""), Item("1", SwitchCfg(""), Nothing));
    assert 1 in Claims("1", SwitchCfg("")) && 1 in Occupied(after.rest);
  }

  // ---------------------------------------------------------------------------------------------
  // Counting
  // ---------------------------------------------------------------------------------------------

  datatype Tally = Tally(lights: nat, switches: nat, shutters: nat)

  function Count(d: Outputs): Tally {
    if d.Nothing? then Tally(0, 0, 0)
    else
      var t := Count(d.rest);
      match d.value
      case LightCfg(_) => t.(lights := t.lights + 1)
      case SwitchCfg(_) => t.(switches := t.switches + 1)
      case ShutterCfg(_, _) => t.(shutters := t.shutters + 1)
  }

  function Weight(d: Outputs): nat {
    var t := Count(d);
    t.lights + t.switches + 2 * t.shutters
  }

  /** The outputs up to `n`. */
  function UpTo(n: int): set<int> {
    set o: int | 1 <= o <= n && InRange(o)
  }

  lemma {:induction false} UpToSize(n: nat)
    requires n <= OUTPUTS_PER_MODULE
    ensures |UpTo(n)| == n
  {
    if n > 0 {
      UpToSize(n - 1);
      assert UpTo(n) == UpTo(n - 1) + {n};
    } else {
      assert UpTo(0) == {};
    }
  }

  /** The outputs no entry claims. */
  function FreeOutputs(d: Outputs): set<int> {
    UpTo(OUTPUTS_PER_MODULE) - Occupied(d)
  }

  lemma ClaimsSize(key: string, cfg: OutputCfg)
    requires EntryOk(key, cfg)
    ensures |Claims(key, cfg)| == if cfg.ShutterCfg? then 2 else 1
  {
    if cfg.ShutterCfg? {
      assert Claims(key, cfg) == {Int(key).value as int, cfg.downOutput};
    } else {
      assert Claims(key, cfg) == {Int(key).value as int};
    }
  }

  lemma {:induction false} WeightIsOccupied(d: Outputs)
    requires WellFormed(d)
    ensures Weight(d) == |Occupied(d)|
  {
    if d.Item? {
      WeightIsOccupied(d.rest);
      ClaimsSize(d.key, d.value);
      DisjointUnionSize(Claims(d.key, d.value), Occupied(d.rest));
    }
  }

  lemma DisjointUnionSize(a: set<int>, b: set<int>)
    requires a !! b
    ensures |a + b| == |a| + |b|
  {
    assert a + b - a == b;
  }

  /** lights + switches + 2 * shutters + free outputs = 12. */
  lemma TwelveOutputs(d: Outputs)
    requires WellFormed(d)
    ensures Weight(d) + |FreeOutputs(d)| == OUTPUTS_PER_MODULE
  {
    WeightIsOccupied(d);
    WellFormedOccupied(d);
    UpToSize(OUTPUTS_PER_MODULE);
    DisjointUnionSize(FreeOutputs(d), Occupied(d));
    assert FreeOutputs(d) + Occupied(d) == UpTo(OUTPUTS_PER_MODULE);
  }

  lemma LightFits(d: Outputs, o: int)
    ensures Refusal(d, AddLight(o, "")).None? <==> o in FreeOutputs(d)
  {
  }

  lemma NonEmptySet(s: set<int>)
    ensures |s| > 0 <==> exists o :: o in s
  {
    if !exists o :: o in s {
      assert s == {};
    }
  }

  /** So, by pigeonhole, a light can be added somewhere exactly while that weight is below 12. */
  lemma RoomForALight(d: Outputs)
    requires WellFormed(d)
    ensures Weight(d) < OUTPUTS_PER_MODULE <==> exists o :: Refusal(d, AddLight(o, "")).None?
  {
    TwelveOutputs(d);
    var free := FreeOutputs(d);
    NonEmptySet(free);
    if o :| o in free {
      LightFits(d, o);
    }
    if o :| Refusal(d, AddLight(o, "")).None? {
      LightFits(d, o);
      assert o in free;
    }
  }
}
